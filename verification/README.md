# The SLIP tunnel of nymea-remoteproxy

The tunnel proxy lets many clients reach many servers that sit behind a firewall. Each server
keeps one socket to the proxy. A client registers for a server and gets a 16-bit socket address
on it; from then on every chunk it sends is put into a SLIP frame with that address and written
to the server's socket, and every frame the server writes with that address goes back to the
client. Address 0x0000 carries JSON-RPC between the server and the proxy itself. The server side
of the tunnel is a client library that keeps a map of sockets in step with what the proxy tells
it.

This project models the proxy (`libnymea-remoteproxy`) and the library at the other end
(`libnymea-remoteproxyclient`), and proves what the tunnel is for: that each end hears exactly
what was said to it, that the two tables stay the same, that no address is shared, and where the
code falls short of this, exactly when.

## Layers

| module | what it holds |
|---|---|
| `SlipDataProcessor` | escaping, unescaping, building and parsing frames, as loops proved equal to functions |
| `Framing` | the reference cut of a stream at END, the peer's reassembler and the proxy's |
| `JsonStream` | cutting a stream of JSON texts into packets |
| `AddressAllocator` | the search for a free socket address |
| `Sessions` | the language of events a server is told: a session begins, carries chunks, ends |
| `Messages` | what travels on a socket |
| `Registry` | the proxy's tables as a value, and every step of the proxy as a function on it |
| `RegistryInvariant`, `RegistryRuns` | what every step keeps in any case, and what it keeps as long as registrations find room; both over all runs |
| `RegistryMoments` | the states the proxy passes through inside a step, and that a server's table was at one of them what it has been told so far |
| `RegistryWrites` | what each kind of step may write to a socket |
| `RegistryCalls` | what each remote call is owed and comes to, from the tables alone, and that every packet is answered once |
| `RegistrySteps` | what each event does: sockets that come and go, timers, chunks of plain JSON |
| `RegistryAnswers` | over whole runs: the answers a socket gets are those to what it has said, in whatever mode and chunks |
| `RegistryAddresses` | over whole runs: which address each client gets, told from its server's story alone |
| `RegistryNumbers` | the numbering of notifications over whole runs |
| `RegistryBuffers` | the bound on what is held for a socket that speaks JSON |
| `RegistryModes` | the switch of each socket from JSON to SLIP or to raw payload |
| `RegistryRouting`, `RegistryOrphans` | who hears whom, what is left of a server that has gone, where chunks come from |
| `RegistrySessions`, `RegistryForwards` | over whole runs: every session a server is told about is what its client said in it, and every client is forwarded what its server wrote for it |
| `TunnelProxy`, `TunnelProxyServer` | the proxy's classes, changed in place and pointing at each other; each operation does to the value what `Registry` says |
| `SocketServer` | the peer as a value |
| `TunnelProxySocketServer` | the peer's classes; each operation does to the value what `SocketServer` says |
| `PeerLifecycle` | what each event does to the peer, and how it comes to run |
| `PeerStream` | the peer on the bytes of its server's socket, with timers and requests between the chunks |
| `EndToEnd` | proxy and peer together, from clients to server |
| `Handshake` | proxy and peer coming together: the two calls with which a server registers, at both ends |
| `ServerToClients` | the way back, from server to clients: one stretch of a server's bytes |
| `ServerStream` | the way back over whole runs, from the bytes a server has written since its switch to what every client is forwarded |
| `KeepAlive` | the peer's ping timer against the proxy's inactivity timer |

A run is any sequence of events: sockets connect and disconnect, chunks of any size arrive,
timers fire. The proxy's log records, in order, every message sent to every socket, every kill
and every published throughput; all statements about runs read this log.

Main results: `EndToEnd.TunnelIsFaithful` (multiplexing and demultiplexing under any chunking,
for every session there ever was, and the mirror), `EndToEnd.PeerIsWhereTheProxyWas` (after any
part of the bytes the peer is a snapshot of its server at an earlier moment),
`Handshake.HandshakeConnectsBoth` (any proxy and any peer get to where the former start),
`PeerStream.PeerMirrorsEveryPrefix`, `RegistryRuns.RunIsSound` and `RegistryRuns.RunKeeps` (the
registry invariant, traffic conservation and session discipline over all runs),
`RegistryAnswers.EverythingIsAnswered`, `RegistryCalls.CallIsHandledExactly`,
`RegistryAddresses.AddressesAreGivenInTurn`, `RegistrySessions.EverySessionIsWhatWasSpoken`, `ServerStream.ServerStreamArrivesExactly` and
`ServerStream.ClientsHearTheStream` (the way back, from bytes to clients, over all runs),
`TunnelProxyServer.EventLoop` and `TunnelProxySocketServer.EventLoop` (the classes go through
exactly these runs), `RegistryModes.RunFits`, `RegistryOrphans.OrphansHearOnlyAnswers`,
`KeepAlive.KeepAliveSufficesExactly` and `KeepAlive.TimeoutsHaveACause`,
`AddressAllocator.NextAddressExactly`, `RegistryRuns.PacketKeepsExactly`,
`SocketServer.RunReconnects`, `PeerLifecycle.ReconnectTimeoutExactly`,
`PeerLifecycle.NothingOnClosedSockets`.

## Where the code does not keep what it says

* The proxy checks that a piece unescapes but hands on the escaped bytes. A frame from a server
  is heard as it was meant if and only if neither its address nor its payload holds 0xC0 or 0xDB
  (`Framing.ProxyHearsExactly`); a frame for address 0x00C0 goes to address 0x00DB
  (`Framing.ProxyMishears`). What this does to the clients is `ServerToClients.ArrivesAsMeant`,
  frame by frame and exactly (`ServerStream.ServerStreamArrivesExactly`). In sum, over frames for
  nobody, two wrongs can cancel out (`ServerToClients.TwoWrongsMakeARight`).
* The proxy keeps a piece that does not unescape, so one bad escape silences that server for
  good (`Framing.ProxyNeverRecovers`). A piece that unescapes to nothing, a lone ESC, is kept
  too, and the next piece is joined to it.
* The decoder drops a trailing ESC without a word (`SlipDataProcessor.AcceptedExactly`).
* The scan for an address gives up after 100 steps and takes what it has reached. 98 attached
  clients are always safe, 99 are not (`AddressAllocator.RoomForNinetyEight`,
  `AddressAllocator.NinetyNineIsTooMany`), and nothing refuses the 99th client. A packet leaves
  the addresses of a server apart if and only if the registration in it, if any, found a free
  candidate on its own server (`RegistryRuns.PacketKeepsExactly`). Session discipline and what
  rests on it assume of a run of the proxy that each accepted registration found room
  (`RegistryRuns.Admissible`), for which 98 clients at that moment suffice
  (`RegistryRuns.UncrowdedIsAdmissible`). The rest holds of every run: tables, teardown and
  traffic (`RegistryRuns.RunIsSound`), the mode switch (`RegistryModes.RunFits`), the numbering
  (`RegistryNumbers.RunCounts`), the buffers (`RegistryBuffers.RunBounded`), and how a server's
  bytes are cut (`ServerStream.StreamIsCut`).
* An address that was found by skipping others can go to the very next client again
  (`RegistryAddresses.AddressComesBackExactly`, `RegistryAddresses.AddressOneComesBack`); one that
  was its own turn's number never does (`RegistryAddresses.OwnNumberDoesNotComeBack`).
* A JSON text is taken for finished wherever a chunk ends behind a closing brace. A text cut into
  chunks is handed on whole if and only if no chunk but its last ends there
  (`JsonStream.WholeInChunksExactly`).
* A first start whose connection fails before `connectServer` returns is never retried
  (`SocketServer.FirstStartMayGiveUp`); starting keeps the promise to reconnect if and only if
  this does not happen (`SocketServer.StartReconnectsExactly`).
* The client library uses request id 0 for everything and looks for a waiting request before it
  looks for a notification. A notification is heard if and only if no request waits or its id is
  not 0 (`PeerStream.NotificationIsHeardExactly`). So the peer hears the whole story if and only
  if no notification under id 0 comes while a request waits (`PeerStream.Unmet`, a condition on
  the order of requests and messages alone); else it hears less
  (`PeerStream.PeerMirrorsEveryPrefix`, `EndToEnd.TunnelIsFaithful`). Only the first notification
  a proxy ever sends has id 0 (`RegistryNumbers.OnlyTheFirstIsZero`), so nothing can be lost on
  any server but the one that gets it (`EndToEnd.UnmetButForTheFirst`).
* Any data from the proxy re-arms the peer's ping timer, so tunnelled data can keep a silent peer
  from ever pinging until the proxy gives it up (`KeepAlive.TunnelledDataSilencesThePeer`). With
  delays below 15 s nothing else can (`KeepAlive.TimeoutsHaveACause`).

## Modelling choices

* A null byte array is `None`. Reading a frame of fewer than two bytes leaves address 0 and no
  payload, as QDataStream leaves short reads at zero. Assertions (`Q_ASSERT_X`) do nothing, as in a
  release build.
* JSON texts come from a codec and a reader that are parameters. What is assumed of a text is
  `Messages.Prints`: it reads back as what was printed, ends in `}` or `}` and a newline, and holds
  no `}`, newline, `{` inside.
* Loops over a hash run in an order the code leaves open. Kills and session ends that such a loop
  issues together are one entry holding a set.
* `close()` on a socket may signal its disconnect at once. The sockets whose disconnect lands
  while item i of a chunk is handled are listed in `hangups[i]` of the `Data` event.
* The socket states a connection signals before `connectServer` returns are a parameter of the
  peer's start.
* `fed` in a client connection, `known`, `log` and `Repr` in `TunnelProxyServer`, and `heardPush` in
  `KeepAlive`, are bookkeeping of the model; the program has no such fields.
* The JSON server's client list and notification counter are fields of the class
  `TunnelProxyServer`, and the list is a set because the code never holds an entry twice.
* Times in `KeepAlive` are whole milliseconds, a ping is answered at once, and messages may
  overtake each other.

## Model

| member | source | states |
|---|---|---|
| SlipDataProcessor.DeserializeData | common/slipdataprocessor.cpp:32-66 | the byte loop computes the decoder's result: null on a bad escape or when nothing was read |
| SlipDataProcessor.SerializeData | common/slipdataprocessor.cpp:68-99 | the byte loop computes the escaped data followed by one END |
| SlipDataProcessor.ParseFrame | common/slipdataprocessor.cpp:101-112 | the first two bytes are the big-endian address, the rest the payload |
| SlipDataProcessor.BuildFrame | common/slipdataprocessor.cpp:114-127 | the big-endian address is put in front of the payload |
| SlipDataProcessor.FrameRoundTrip | common/slipdataprocessor.cpp:32-127 | building, escaping, unescaping and parsing is the identity for every address and payload |
| SlipDataProcessor.WireShape | common/slipdataprocessor.cpp:68-99 | END is the last byte of a frame and occurs nowhere else in it; the length is the body plus one per reserved byte plus one |
| SlipDataProcessor.EncodingShape | common/slipdataprocessor.cpp:79-96 | escaped data holds no END and no bad escape and does not stop inside an escape |
| SlipDataProcessor.DecodeFailsExactly | common/slipdataprocessor.cpp:39-63 | decoding fails exactly when an ESC is followed by a byte other than 0xDC and 0xDD |
| SlipDataProcessor.DecodeInverts | common/slipdataprocessor.cpp:39-63 | an accepted piece is the escaping of what was read, save for a dropped trailing ESC |
| SlipDataProcessor.AcceptedExactly | common/slipdataprocessor.cpp:32-66 | exactly which pieces are read as a given body |
| SlipDataProcessor.EscapingIsVisible | common/slipdataprocessor.cpp:79-96 | escaping leaves data alone exactly when it holds no reserved byte |
| Framing.SplitJoins | libnymea-remoteproxyclient/tunnelproxy/tunnelproxysocketserver.cpp:201-231 | cutting a stream at END loses no byte and leaves no END in a piece |
| Framing.SplitUnique | libnymea-remoteproxyclient/tunnelproxy/tunnelproxysocketserver.cpp:201-231 | the cut is the only one with these two properties |
| Framing.SplitContinues | libnymea-remoteproxyclient/tunnelproxy/tunnelproxysocketserver.cpp:201-231 | the cut can be resumed from the buffered rest alone, so chunking does not matter |
| Framing.PeerReadsBodies | libnymea-remoteproxyclient/tunnelproxy/tunnelproxysocketserver.cpp:209-231 | the peer reads back exactly the frames that were written |
| Framing.PeerResynchronises | libnymea-remoteproxyclient/tunnelproxy/tunnelproxysocketserver.cpp:209-231 | after any garbage and one END every following frame is recovered and the buffer is empty |
| Framing.AssembleContinues | libnymea-remoteproxy/tunnelproxy/tunnelproxyclient.cpp:72-92 | the proxy's reassembly depends only on the stream, not on the chunks |
| Framing.ProxyNeverRecovers | libnymea-remoteproxy/tunnelproxy/tunnelproxyclient.cpp:81-88 | once a bad escape is buffered no frame is ever handed on again |
| Framing.ProxyExactlyWhenAccepted | libnymea-remoteproxy/tunnelproxy/tunnelproxyclient.cpp:72-92 | the proxy hands on the pieces of the cut exactly when all of them decode |
| Framing.ProxyReadsBodies | libnymea-remoteproxy/tunnelproxy/tunnelproxyclient.cpp:81-87 | for valid frames it hands on exactly the escaped bodies, in order |
| Framing.ProxyHearsExactly | libnymea-remoteproxy/tunnelproxy/tunnelproxyserver.cpp:410-433 | the parsed frame is the one the peer meant exactly when it holds no reserved byte |
| Framing.ProxyMishears | libnymea-remoteproxy/tunnelproxy/tunnelproxyserver.cpp:410-433 | a frame for address 0x00C0 is taken to be for 0x00DB |
| JsonStream.ProcessData | libnymea-remoteproxy/tunnelproxy/tunnelproxyclient.cpp:94-106 | the splitter loop computes the packets and the residual buffer |
| JsonStream.IngestConserves | libnymea-remoteproxy/tunnelproxy/tunnelproxyclient.cpp:94-106 | one chunk: no byte is lost but one newline per split, packets are finished and unsplit, the residual is unfinished |
| JsonStream.FeedConserves | libnymea-remoteproxyclient/proxyjsonrpcclient.cpp:176-191 | the same over any sequence of chunks |
| JsonStream.WholeInChunksExactly | libnymea-remoteproxyclient/proxyjsonrpcclient.cpp:176-191 | a finished text in chunks is handed on whole if and only if no chunk but the last ends where a packet could end |
| AddressAllocator.NextAddressExactly | libnymea-remoteproxy/tunnelproxy/tunnelproxyserverconnection.cpp:85-99 | the address is usable exactly when one of 101 candidates is free, and is then the first free one in cyclic order |
| AddressAllocator.RoomForNinetyEight | libnymea-remoteproxy/tunnelproxy/tunnelproxyserverconnection.cpp:85-99 | with at most 98 addresses in use a candidate is free |
| AddressAllocator.NinetyNineIsTooMany | libnymea-remoteproxy/tunnelproxy/tunnelproxyserverconnection.cpp:85-99 | with 99 in use the scan can return 0x0000 |
| Sessions.TrackExactly | libnymea-remoteproxy/tunnelproxy/tunnelproxyserver.cpp:185-194 | tracking succeeds exactly on disciplined sequences: an address begins only while free, chunks and ends concern open sessions |
| Sessions.OnBoardExactly | libnymea-remoteproxyclient/tunnelproxy/tunnelproxysocketserver.cpp:322-342 | an address is on the board exactly while a session is open on it |
| Sessions.BoardHolds | libnymea-remoteproxyclient/tunnelproxy/tunnelproxysocketserver.cpp:322-342 | an open session holds its client and exactly the chunks since it began |
| Sessions.EachEndsOnce | libnymea-remoteproxyclient/tunnelproxy/tunnelproxysocketserver.cpp:330-342 | every session that began is open or ended exactly once |
| TunnelProxy.TunnelProxyClient.ProcessData | libnymea-remoteproxy/tunnelproxy/tunnelproxyclient.cpp:67-109 | the loop over bytes or splits equals the reassembler of the mode and leaves its buffer |
| TunnelProxy.TunnelProxyServerConnection.GetFreeAddress | libnymea-remoteproxy/tunnelproxy/tunnelproxyserverconnection.cpp:85-99 | the scan loop returns the allocator's address and advances the counter by one with wrap-around |
| TunnelProxy.TunnelProxyServerConnection.RegisterClientConnection | libnymea-remoteproxy/tunnelproxy/tunnelproxyserverconnection.cpp:63-70 | both indexes gain the client, which points back with its new address, and the address counter has moved on by one |
| TunnelProxy.TunnelProxyServerConnection.UnregisterClientConnection | libnymea-remoteproxy/tunnelproxy/tunnelproxyserverconnection.cpp:72-78 | both indexes lose the client, which is left with address 0xFFFF and no server |
| TunnelProxy.TunnelProxyClientConnection.SetServerConnection | libnymea-remoteproxy/tunnelproxy/tunnelproxyclientconnection.cpp:53-62 | the pointer is set and the cached uuid agrees with it |
| TunnelProxyServer.TunnelProxyServer.constructor | libnymea-remoteproxy/tunnelproxy/tunnelproxyserver.cpp:39-45 | starts with empty tables |
| TunnelProxyServer.TunnelProxyServer.SendControl | libnymea-remoteproxy/server/jsonrpcserver.cpp:141-177 | a control message goes out as a frame for address 0 once SLIP is on, else as plain text |
| TunnelProxyServer.TunnelProxyServer.RegisterServer | libnymea-remoteproxy/tunnelproxy/tunnelproxyserver.cpp:84-132 | result, tables, flags and kill request of every branch, with all pointers intact |
| TunnelProxyServer.TunnelProxyServer.RegisterClient | libnymea-remoteproxy/tunnelproxy/tunnelproxyserver.cpp:134-199 | result, tables, address, notification and kill request of every branch, with all pointers intact |
| TunnelProxyServer.TunnelProxyServer.DisconnectClient | libnymea-remoteproxy/tunnelproxy/tunnelproxyserver.cpp:201-230 | result, kill and kill request of every branch |
| TunnelProxyServer.TunnelProxyServer.Invoke | libnymea-remoteproxy/jsonrpc/tunnelproxyhandler.cpp:102-162 | the tables after each procedure, and the reply that the tables before owe to it |
| TunnelProxyServer.TunnelProxyServer.ProcessDataPacket | libnymea-remoteproxy/server/jsonrpcserver.cpp:206-313 | the response, then the requested kill or else the switch to SLIP; an error and a kill for an unusable packet |
| TunnelProxyServer.TunnelProxyServer.OnClientConnected | libnymea-remoteproxy/tunnelproxy/tunnelproxyserver.cpp:306-320 | a new socket enters both lists; a second one under the same id is killed |
| TunnelProxyServer.TunnelProxyServer.UnregisterClients | libnymea-remoteproxy/tunnelproxy/tunnelproxyserver.cpp:339-342 | the loop orphans and kills every client of the server |
| TunnelProxyServer.TunnelProxyServer.OnClientDisconnected | libnymea-remoteproxy/tunnelproxy/tunnelproxyserver.cpp:322-368 | the tables and the notification after the socket of a server, a client or neither has closed |
| TunnelProxyServer.TunnelProxyServer.OnClientSocketData | libnymea-remoteproxy/tunnelproxy/tunnelproxyserver.cpp:381-402 | a client's chunk goes framed to its server and is counted; without a server it is dropped |
| TunnelProxyServer.TunnelProxyServer.OnServerFrame | libnymea-remoteproxy/tunnelproxy/tunnelproxyserver.cpp:410-434 | a frame goes to the JSON server, to the client with its address, or nowhere |
| TunnelProxyServer.TunnelProxyServer.ProcessJsonData | libnymea-remoteproxy/server/jsonrpcserver.cpp:388-408 | packets in order; a kill when more than 10240 bytes stay buffered |
| TunnelProxyServer.TunnelProxyServer.OnClientDataAvailable | libnymea-remoteproxy/tunnelproxy/tunnelproxyserver.cpp:370-443 | the whole effect of a chunk by type and mode, and every packet it completes answered once |
| TunnelProxyServer.TunnelProxyServer.Tick | libnymea-remoteproxy/tunnelproxy/tunnelproxyserver.cpp:300-304 | the counter is published and reset |
| TunnelProxyServer.EventLoop | libnymea-remoteproxy/tunnelproxy/tunnelproxyserver.cpp:84-443 | after any events the objects' value is that of Registry's run, so its invariant holds of them |
| RegistryInvariant.AddClientKeepsExactly | libnymea-remoteproxy/tunnelproxy/tunnelproxyserver.cpp:169-198 | registering a client keeps tables, pointers, openness and sums in any case, and the separation of addresses, boards and discipline if and only if the search can reach a free address |
| RegistryInvariant.AddServerKeeps | libnymea-remoteproxy/tunnelproxy/tunnelproxyserver.cpp:116-131 | registering a server keeps both halves of the invariant |
| RegistryInvariant.DisconnectServerKeeps | libnymea-remoteproxy/tunnelproxy/tunnelproxyserver.cpp:331-342 | tearing a server down keeps both halves, crowded or not |
| RegistryInvariant.DisconnectClientKeeps | libnymea-remoteproxy/tunnelproxy/tunnelproxyserver.cpp:346-358 | removing a client keeps both halves, crowded or not |
| RegistryInvariant.TunnelChunkKeeps | libnymea-remoteproxy/tunnelproxy/tunnelproxyserver.cpp:396-402 | tunnelling a chunk keeps both halves, and extends exactly the right session |
| RegistryRuns.AcceptsExactly | libnymea-remoteproxy/tunnelproxy/tunnelproxyserver.cpp:134-199 | the registrations the premise on room speaks of are exactly those answered with an acceptance |
| RegistryRuns.PacketKeepsExactly | libnymea-remoteproxy/tunnelproxy/tunnelproxyserverconnection.cpp:85-99 | a packet keeps the whole invariant if and only if the registration in it, if any, finds a free address on its own server |
| RegistryRuns.StepKeeps | libnymea-remoteproxy/tunnelproxy/tunnelproxyserver.cpp:84-443 | every step keeps the unconditional half, and the other half too if every registration in it finds room |
| RegistryRuns.RunIsSound | libnymea-remoteproxy/tunnelproxy/tunnelproxyserver.cpp:84-443 | in every state of every run: disjoint uuids, sockets in bijection with tables, every pointer leads back, orphans killed, only open sockets told things, bytes conserved |
| RegistryRuns.RunKeeps | libnymea-remoteproxy/tunnelproxy/tunnelproxyserver.cpp:84-443 | in every state of a run whose registrations found room also: inverse indexes, no reserved address, servers told exactly their tables, discipline |
| RegistryRuns.UncrowdedIsAdmissible | libnymea-remoteproxy/tunnelproxy/tunnelproxyserverconnection.cpp:85-99 | at most 98 addresses in use on its own server at each accepted registration is room enough |
| RegistryRuns.ServersAreToldTheirTables | libnymea-remoteproxy/tunnelproxy/tunnelproxyserver.cpp:181-194 | the sessions open in what a server was told are its address table, each with every chunk handed over |
| RegistryRuns.EverySocketIsDisciplined | libnymea-remoteproxy/tunnelproxy/tunnelproxyserver.cpp:185-194 | on every socket each address carries ClientConnected, data and ClientDisconnected in that order, over and over |
| RegistryRuns.TrafficIsConserved | libnymea-remoteproxy/tunnelproxy/tunnelproxyserver.cpp:300-304 | over any run published values plus the running counter equal all payload bytes forwarded both ways |
| RegistryRuns.OnlyOpenSocketsAreToldThings | libnymea-remoteproxy/tunnelproxy/tunnelproxyserver.cpp:346-357 | over any run notifications, chunks and payloads only go to sockets that are open |
| RegistryCalls.RegisterServerExactly | libnymea-remoteproxy/tunnelproxy/tunnelproxyserver.cpp:84-132 | accepted if and only if the socket has no role and the uuid is free; else nothing changes but a kill request |
| RegistryCalls.RegisterClientExactly | libnymea-remoteproxy/tunnelproxy/tunnelproxyserver.cpp:134-199 | accepted if and only if the socket has no role, the uuid is free and the server known; then its server alone is told its name, uuid, peer address and socket address, and this address is its own if the search finds room |
| RegistryCalls.DisconnectClientExactly | libnymea-remoteproxy/tunnelproxy/tunnelproxyserver.cpp:201-230 | granted if and only if a server names an address one of its clients holds; kills that client's socket and no other |
| RegistryCalls.PacketsAreAnsweredOnce | libnymea-remoteproxy/server/jsonrpcserver.cpp:206-313 | every packet is answered exactly once, on its own socket, under its own id, with the reply the tables owe to its call or an error |
| RegistryCalls.InvokeOwes | libnymea-remoteproxy/jsonrpc/tunnelproxyhandler.cpp:102-161 | the reply of every procedure from the tables alone: for each error exactly when it is given |
| RegistryCalls.CallIsHandledExactly | libnymea-remoteproxy/server/jsonrpcserver.cpp:206-313 | a call from the packet to the log and the tables: announcement or kill, the answer that is owed, a kill exactly after a fatal answer or a requested one, SLIP exactly when due and kept, who is in the tables with what role |
| RegistryCalls.UnusableIsHandledExactly | libnymea-remoteproxy/server/jsonrpcserver.cpp:206-250 | what is no call is answered with an error and kills the socket, and nothing else changes |
| RegistrySteps.ConnectedExactly | libnymea-remoteproxy/tunnelproxy/tunnelproxyserver.cpp:306-320 | a new socket is listed without a role and heard by the JSON server; one under an id in use is killed |
| RegistrySteps.DisconnectedExactly | libnymea-remoteproxy/tunnelproxy/tunnelproxyserver.cpp:322-375 | a disconnect takes the socket from both lists, once |
| RegistrySteps.ClientGoesExactly | libnymea-remoteproxy/tunnelproxy/tunnelproxyserver.cpp:346-363 | a client that goes is taken from both indexes of its server, which is told under the client's address |
| RegistrySteps.ServerGoesExactly | libnymea-remoteproxy/tunnelproxy/tunnelproxyserver.cpp:331-344 | a server that goes leaves its clients without server and address, and exactly their sockets are killed |
| RegistrySteps.InactiveExactly | libnymea-remoteproxy/tunnelproxy/tunnelproxyclient.cpp:124-133 | inactivity kills the socket |
| RegistrySteps.TicksPublishTheTraffic | libnymea-remoteproxy/tunnelproxy/tunnelproxyserver.cpp:300-304 | a tick publishes exactly the payload bytes forwarded since the tick before |
| RegistrySteps.StrangersAreIgnored | libnymea-remoteproxy/tunnelproxy/tunnelproxyserver.cpp:370-376 | data under an id that is not listed changes nothing |
| RegistrySteps.OverflowIsKilled | libnymea-remoteproxy/server/jsonrpcserver.cpp:396-402 | a plain chunk that leaves more than 10240 bytes kills the socket, and none of its packets is handled |
| RegistrySteps.PlainChunkIsAnswered | libnymea-remoteproxy/tunnelproxy/tunnelproxyserver.cpp:440-443 | any other plain chunk is answered packet by packet, in order |
| RegistrySteps.PacketInChunks | libnymea-remoteproxy/server/jsonrpcserver.cpp:388-408 | a packet that is not cut behind a brace is handled whole, however it is cut |
| RegistryAnswers.EverythingIsAnswered | libnymea-remoteproxy/server/jsonrpcserver.cpp:206-313 | over any run the answers on a socket are one for each packet it has said since it opened, in order and under its id: JSON in plain, frames for address 0 once SLIP is on, nothing once it is a client; what is left over is in its buffer |
| RegistryAnswers.PlainSocketsAreHeardWhole | libnymea-remoteproxy/server/jsonrpcserver.cpp:388-408 | over any run, on a socket in plain, these packets are those cut from all the bytes it has delivered |
| RegistryAddresses.AddressesAreGivenInTurn | libnymea-remoteproxy/tunnelproxy/tunnelproxyserverconnection.cpp:85-99 | over whole runs the n-th session ever to begin on a server's socket begins on the first address, from n on in cyclic order, on which no session is open and which is not reserved |
| RegistryAddresses.AddressComesBackExactly | libnymea-remoteproxy/tunnelproxy/tunnelproxyserverconnection.cpp:85-99 | exactly when an address goes to two clients in a row: it was found by skipping, has been released, and those skipped are still blocked |
| RegistryAddresses.OwnNumberDoesNotComeBack | libnymea-remoteproxy/tunnelproxy/tunnelproxyserverconnection.cpp:87-88 | an address that was its turn's own number is not given to the next client |
| RegistryAddresses.AddressOneComesBack | libnymea-remoteproxy/tunnelproxy/tunnelproxyserverconnection.cpp:85-99 | with nobody else there the 65535th and the 65536th client both get address 1 |
| RegistryNumbers.RunCounts | libnymea-remoteproxy/server/jsonrpcserver.cpp:410-414 | over any run every notification carries the number of notifications before it |
| RegistryNumbers.NumbersNeverRepeat | libnymea-remoteproxy/server/jsonrpcserver.cpp:410-414 | a later notification, on whatever socket, carries a higher number |
| RegistryNumbers.OnlyTheFirstIsZero | libnymea-remoteproxyclient/proxyjsonrpcclient.cpp:134-151 | over any run a notification carries the id of the client library's requests if and only if it is the first the proxy ever sends |
| RegistryNumbers.NoneElsewhereIsZero | libnymea-remoteproxyclient/proxyjsonrpcclient.cpp:134-151 | no socket but the one that got the proxy's first notification is ever sent one with this id |
| RegistryBuffers.RunBounded | libnymea-remoteproxy/server/jsonrpcserver.cpp:388-408 | over any run a socket without SLIP that has not been killed holds at most 10240 bytes |
| RegistryModes.RunFits | libnymea-remoteproxy/server/jsonrpcserver.cpp:294-312 | over any run each socket switches mode once: a server's RegisterServer response is its last plain message, a client's RegisterClient response precedes every payload |
| RegistryRouting.AddressesAreNeverShared | libnymea-remoteproxy/tunnelproxy/tunnelproxyserverconnection.cpp:63-83 | two clients of one server never hold the same address, nor a reserved one |
| RegistryRouting.FramesReachTheirClientOnly | libnymea-remoteproxy/tunnelproxy/tunnelproxyserver.cpp:417-433 | a frame reaches the one client attached to this server under its address, or nobody |
| RegistryRouting.ChunksReachTheirServerOnly | libnymea-remoteproxy/tunnelproxy/tunnelproxyserver.cpp:381-402 | a chunk reaches the client's own server only, under the address that names this client there |
| RegistryRouting.TeardownOrphansAndKills | libnymea-remoteproxy/tunnelproxy/tunnelproxyserver.cpp:331-342 | after a server's socket closed no client points to it and each former client has been killed |
| RegistryRouting.FramesAfterTeardownAreNotDelivered | libnymea-remoteproxy/tunnelproxy/tunnelproxyserver.cpp:410-422 | frames of a chunk that come after the one that tore the server down reach no client |
| RegistryRouting.HistoriesAreWhatWasHanded | libnymea-remoteproxy/tunnelproxy/tunnelproxyserver.cpp:381-402 | over any run the history of a client is exactly the chunks its socket delivered while attached |
| RegistryRouting.SessionsCarryWhatWasHanded | libnymea-remoteproxy/tunnelproxy/tunnelproxyserver.cpp:390-401 | on the server's socket an attached client's session carries exactly these chunks, in order |
| RegistryMoments.TableAtThatMoment | libnymea-remoteproxy/tunnelproxy/tunnelproxyserver.cpp:181-194 | for any beginning of what a registered server has been told there was a moment of the run at which it had been told just that, and its table was what it had been told |
| RegistrySessions.EveryChunkIsSpoken | libnymea-remoteproxy/tunnelproxy/tunnelproxyserver.cpp:390-401 | every chunk of an attached client falls into a session that is open for it on its server's socket |
| RegistrySessions.EverySessionIsWhatWasSpoken | libnymea-remoteproxy/tunnelproxy/tunnelproxyserver.cpp:390-401 | over whole runs, for every session a socket was told about, ended or not: the chunks from its beginning to its end are exactly those its client handed over in that time |
| RegistryForwards.BehindExactly | libnymea-remoteproxy/tunnelproxy/tunnelproxyserver.cpp:417-433 | the socket behind an address of a server is that of the client attached there, and no other |
| RegistryForwards.ClientsHearWhatWasWritten | libnymea-remoteproxy/tunnelproxy/tunnelproxyserver.cpp:405-434 | over whole runs a socket has been forwarded exactly the payloads of the frames its server wrote with its address while it was attached, as parsed |
| RegistryWrites.StepWrites | libnymea-remoteproxy/tunnelproxy/tunnelproxyserver.cpp:84-443 | no step but an attached client's chunk and the opening of a socket tunnels anything or opens anything |
| RegistryOrphans.StepCutOff | libnymea-remoteproxy/tunnelproxy/tunnelproxyserver.cpp:331-361 | a step sends a client without a server nothing but answers and leaves it without a server, crowded or not |
| RegistryOrphans.OrphansHearOnlyAnswers | libnymea-remoteproxy/tunnelproxy/tunnelproxyserver.cpp:331-361 | from teardown on no later step of any run sends a former client a notification or data |
| SocketServer.RunKeeps | libnymea-remoteproxyclient/tunnelproxy/tunnelproxysocketserver.cpp:117-470 | over all event orders: running exactly in StateRunning, keep-alive timer on then, sockets are the sessions open in what the application was told |
| SocketServer.CleanUpKeeps | libnymea-remoteproxyclient/tunnelproxy/tunnelproxysocketserver.cpp:448-470 | cleaning up empties the map and ends every session it held |
| SocketServer.StartReconnectsExactly | libnymea-remoteproxyclient/tunnelproxy/tunnelproxysocketserver.cpp:117-155 | starting leaves a disconnected enabled server with its timer armed exactly when it was enabled before or the connection is under way |
| SocketServer.FirstStartMayGiveUp | libnymea-remoteproxyclient/tunnelproxy/tunnelproxysocketserver.cpp:117-155 | a first start that fails at once leaves the timer off |
| SocketServer.RunReconnects | libnymea-remoteproxyclient/tunnelproxy/tunnelproxysocketserver.cpp:357-409 | over all other event orders enabled and disconnected implies the reconnect timer is armed |
| SocketServer.SocketsEndOnce | libnymea-remoteproxyclient/tunnelproxy/tunnelproxysocketserver.cpp:322-342 | every announced socket is in the map or has ended exactly once |
| SocketServer.RunningStartsWithEmptyBuffer | libnymea-remoteproxyclient/tunnelproxy/tunnelproxysocketserver.cpp:195-199 | the step that enters StateRunning leaves the frame buffer empty |
| TunnelProxySocketServer.TunnelProxySocketServer.SetState | libnymea-remoteproxyclient/tunnelproxy/tunnelproxysocketserver.cpp:393-426 | state, running flag and both timers |
| TunnelProxySocketServer.TunnelProxySocketServer.OnConnectionStateChanged | libnymea-remoteproxyclient/tunnelproxy/tunnelproxysocketserver.cpp:240-265 | the state for each socket state; a connected socket stops the reconnect timer |
| TunnelProxySocketServer.TunnelProxySocketServer.OnTunnelProxyClientConnected | libnymea-remoteproxyclient/tunnelproxy/tunnelproxysocketserver.cpp:322-328 | the socket enters the map and is announced |
| TunnelProxySocketServer.TunnelProxySocketServer.OnTunnelProxyClientDisconnected | libnymea-remoteproxyclient/tunnelproxy/tunnelproxysocketserver.cpp:330-342 | the socket leaves the map and is reported; an unknown address is ignored |
| TunnelProxySocketServer.TunnelProxySocketServer.CleanUp | libnymea-remoteproxyclient/tunnelproxy/tunnelproxysocketserver.cpp:448-470 | the loop over the map disconnects every socket, the JSON client goes, the state is disconnected |
| TunnelProxySocketServer.TunnelProxySocketServer.OnReply | libnymea-remoteproxyclient/tunnelproxy/tunnelproxysocketserver.cpp:267-320 | after Hello the registration waits for its reply, an accepted registration runs the server, and an error or refusal changes nothing |
| TunnelProxySocketServer.TunnelProxySocketServer.ProcessDataPacket | libnymea-remoteproxyclient/proxyjsonrpcclient.cpp:121-174 | a waiting request is looked up before a notification is considered |
| TunnelProxySocketServer.TunnelProxySocketServer.ProcessJsonData | libnymea-remoteproxyclient/proxyjsonrpcclient.cpp:176-191 | handling packets as they are cut off equals cutting first and handling them in order |
| TunnelProxySocketServer.TunnelProxySocketServer.DispatchFrame | libnymea-remoteproxyclient/tunnelproxy/tunnelproxysocketserver.cpp:213-227 | address 0 is for the JSON client, other data for the socket in the map, the rest is ignored |
| TunnelProxySocketServer.TunnelProxySocketServer.ReadFrames | libnymea-remoteproxyclient/tunnelproxy/tunnelproxysocketserver.cpp:201-232 | the byte loop dispatches the frames of the reference cut and buffers its rest |
| TunnelProxySocketServer.TunnelProxySocketServer.OnConnectionDataAvailable | libnymea-remoteproxyclient/tunnelproxy/tunnelproxysocketserver.cpp:188-233 | the whole effect of a chunk, by state |
| TunnelProxySocketServer.TunnelProxySocketServer.StartServer | libnymea-remoteproxyclient/tunnelproxy/tunnelproxysocketserver.cpp:117-155 | clean-up, a new JSON client, the connection's signals, and only then enabled |
| TunnelProxySocketServer.TunnelProxySocketServer.OnConnectionChanged | libnymea-remoteproxyclient/tunnelproxy/tunnelproxysocketserver.cpp:170-186 | connecting calls Hello, disconnecting cleans up |
| TunnelProxySocketServer.TunnelProxySocketServer.OnReconnectTimeout | libnymea-remoteproxyclient/tunnelproxy/tunnelproxysocketserver.cpp:361-371 | armed and disconnected it makes an attempt to connect: sessions ended, a new JSON client, the state the connection has got to; a disabled server stops the timer |
| TunnelProxySocketServer.TunnelProxySocketServer.OnKeepAliveTimeout | libnymea-remoteproxyclient/tunnelproxy/tunnelproxysocketserver.cpp:376-390 | a running server pings, any other stops the timer |
| TunnelProxySocketServer.EventLoop | libnymea-remoteproxyclient/tunnelproxy/tunnelproxysocketserver.cpp:117-470 | after any events the object's value is that of SocketServer's run, so its invariant holds of it |
| TunnelProxySocketServer.PacketsIgnoreBuffer | libnymea-remoteproxyclient/proxyjsonrpcclient.cpp:121-174 | handling packets neither reads nor writes what is still to be cut |
| PeerStream.PeerIgnoresChunking | libnymea-remoteproxyclient/tunnelproxy/tunnelproxysocketserver.cpp:188-233 | a running peer's frames depend only on the concatenated stream |
| PeerStream.PeerHearsAll | libnymea-remoteproxyclient/tunnelproxy/tunnelproxysocketserver.cpp:209-227 | framed messages tell the application exactly their story if and only if no notification comes under id 0 while a request waits, else less; and exactly when a request still waits after them |
| PeerStream.PeerMirrorsEveryPrefix | libnymea-remoteproxyclient/tunnelproxy/tunnelproxysocketserver.cpp:322-342 | after any part of the wire, with timers and requests between the chunks, the buffer holds what follows the messages that have arrived whole, and the signals are exactly the story of these, with the map its fold, if and only if no notification under id 0 has met a waiting request; else there are fewer signals |
| PeerStream.ApartIsUnmet | libnymea-remoteproxyclient/proxyjsonrpcclient.cpp:134-151 | no notification meets a request if none carries its id, or if nothing waits and nothing is ever asked |
| PeerStream.ArrivedOnce | libnymea-remoteproxyclient/tunnelproxy/tunnelproxysocketserver.cpp:201-231 | the number of messages that have arrived whole is determined by the bytes |
| PeerStream.NotificationIsHeardExactly | libnymea-remoteproxyclient/proxyjsonrpcclient.cpp:134-151 | a notification is heard if and only if no request waits or its id is not 0 |
| PeerLifecycle.StartExactly | libnymea-remoteproxyclient/tunnelproxy/tunnelproxysocketserver.cpp:117-155 | a start ends every session, makes a new JSON client and follows the connection; an invalid url changes nothing; when the reconnect timer is armed then |
| PeerLifecycle.ReconnectTimeoutExactly | libnymea-remoteproxyclient/tunnelproxy/tunnelproxysocketserver.cpp:361-371 | the timer makes such an attempt exactly when armed and disconnected, and else does nothing |
| PeerLifecycle.StopExactly | libnymea-remoteproxyclient/tunnelproxy/tunnelproxysocketserver.cpp:157-168 | stopping disables the server and its reconnect timer, and leaves the rest to the disconnect |
| PeerLifecycle.StoppedStaysStopped | libnymea-remoteproxyclient/tunnelproxy/tunnelproxysocketserver.cpp:361-371 | after a stop, over all event orders without a start, no timeout connects again |
| PeerLifecycle.StateChangedExactly | libnymea-remoteproxyclient/tunnelproxy/tunnelproxysocketserver.cpp:240-265 | the state follows the socket's, with both timers |
| PeerLifecycle.ConnectionExactly | libnymea-remoteproxyclient/tunnelproxy/tunnelproxysocketserver.cpp:170-179 | a connection asks for Hello |
| PeerLifecycle.ConnectionLostExactly | libnymea-remoteproxyclient/tunnelproxy/tunnelproxysocketserver.cpp:180-185 | a lost connection ends every session and drops the JSON client |
| PeerLifecycle.KeepAliveTimeoutExactly | libnymea-remoteproxyclient/tunnelproxy/tunnelproxysocketserver.cpp:376-390 | the ping timer of a running peer sends a request, any other stops |
| PeerLifecycle.DataRearms | libnymea-remoteproxyclient/tunnelproxy/tunnelproxysocketserver.cpp:192-193 | any data re-arms the ping timer, in any state |
| PeerLifecycle.HelloIsAnswered | libnymea-remoteproxyclient/tunnelproxy/tunnelproxysocketserver.cpp:267-292 | a Hello response, however cut, leads to StateRegister with the registration waiting; an error does not |
| PeerLifecycle.RegistrationIsAnswered | libnymea-remoteproxyclient/tunnelproxy/tunnelproxysocketserver.cpp:294-320 | the answer to the registration, however cut, runs the peer if and only if it accepts |
| PeerLifecycle.HandshakeRunsExactly | libnymea-remoteproxyclient/tunnelproxy/tunnelproxysocketserver.cpp:117-320 | start, connection and two answers, from any state of the peer: its old sessions have ended, nothing is left over or waits, and it runs if and only if Hello got a response and the registration was accepted |
| PeerLifecycle.RunsOnlyOnAcceptance | libnymea-remoteproxyclient/tunnelproxy/tunnelproxysocketserver.cpp:294-320 | a packet makes the peer run if and only if it is the acceptance it waits for |
| PeerLifecycle.NothingOnClosedSockets | libnymea-remoteproxyclient/tunnelproxy/tunnelproxysocketserver.cpp:219-227 | over all event orders, whatever the proxy sends: no data and no end is told of a socket that is not open |
| EndToEnd.AcceptanceStartsRunning | libnymea-remoteproxyclient/tunnelproxy/tunnelproxysocketserver.cpp:294-320 | the accepted registration, in its own chunk, starts the peer |
| EndToEnd.ServersSwitchToSlip | libnymea-remoteproxy/server/jsonrpcserver.cpp:303-312 | over any run every registered server that was not killed has switched to SLIP right after its acceptance |
| EndToEnd.PeerHearsEverySession | libnymea-remoteproxy/tunnelproxy/tunnelproxyserver.cpp:381-402 | of any socket that switched to SLIP in a run whose registrations found room, its server still there or not, the peer hears every session with exactly the chunks its client handed over in it, if and only if no notification under id 0 met a waiting request |
| EndToEnd.TunnelIsFaithful | libnymea-remoteproxy/tunnelproxy/tunnelproxyserver.cpp:381-402 | for any run whose registrations found room, any chunking and any timers between: every session there ever was holds exactly its client's chunks if and only if no notification under id 0 met a waiting request; then the peer's map is the proxy's address table and the sessions of attached clients hold all they handed over |
| EndToEnd.PeerIsWhereTheProxyWas | libnymea-remoteproxyclient/tunnelproxy/tunnelproxysocketserver.cpp:322-342 | after any part of the bytes (registrations found room, no notification met a request): the peer's map is the address table its server had at some moment of the same run, and its open sessions hold what the clients had handed over by then |
| EndToEnd.UnmetButForTheFirst | libnymea-remoteproxyclient/proxyjsonrpcclient.cpp:134-151 | no notification meets a request on any server but the one that got the proxy's first, whatever the peer asks and when |
| Handshake.ProxyRegisters | libnymea-remoteproxy/tunnelproxy/tunnelproxyserver.cpp:84-132 | a new socket that says Hello and RegisterServer under a free uuid, however cut, is a server in SLIP mode that has been sent exactly the two answers |
| Handshake.PeerStarts | libnymea-remoteproxyclient/tunnelproxy/tunnelproxysocketserver.cpp:117-320 | these answers, however cut, bring any peer to where the whole-tunnel statements start |
| Handshake.HandshakeConnectsBoth | libnymea-remoteproxyclient/tunnelproxy/tunnelproxysocketserver.cpp:117-320 | both over whole runs of either end |
| ServerToClients.ServerIgnoresChunking | libnymea-remoteproxy/tunnelproxy/tunnelproxyserver.cpp:405-434 | any stream of a server, with frames for the JSON server, for clients and for nobody and after any leftover, has the effect it has in one piece |
| ServerToClients.StreamDelivers | libnymea-remoteproxy/tunnelproxy/tunnelproxyserver.cpp:405-434 | what is forwarded of a stream are the payloads of the pieces that parse to a client's address, each to this client, in order |
| ServerToClients.HeardAsJsonExactly | libnymea-remoteproxy/tunnelproxy/tunnelproxyserver.cpp:411-415 | a frame is taken for one for the JSON server exactly when it is one |
| ServerToClients.FrameArrivesExactly | libnymea-remoteproxy/tunnelproxy/tunnelproxyserver.cpp:417-433 | any frame brings what was meant to whom it was meant for exactly if it is for the JSON server, holds no reserved byte, or nobody holds its address nor the one it is heard for; for an attached client, exactly if it holds no reserved byte |
| ServerToClients.ServerReachesClientsExactly | libnymea-remoteproxy/tunnelproxy/tunnelproxyserver.cpp:405-434 | over any chunking of any frames each arrives exactly as FrameArrivesExactly says; if all are for clients or the JSON server, exactly the payloads meant for each client are forwarded, in order, if and only if no frame for a client holds a reserved byte |
| ServerToClients.TwoWrongsMakeARight | libnymea-remoteproxy/tunnelproxy/tunnelproxyserver.cpp:410-433 | two frames that both go astray whose sum is what was meant: why the sum alone is exact only for held addresses |
| ServerStream.StreamIsCut | libnymea-remoteproxy/tunnelproxy/tunnelproxyclient.cpp:72-92 | over any run, whatever comes between the chunks of a server: the frames handled are those of the bytes it wrote since its switch, cut in one piece, and the rest is in its buffer |
| ServerStream.EverythingForwarded | libnymea-remoteproxy/tunnelproxy/tunnelproxyserver.cpp:405-434 | over whole runs everything ever forwarded to anyone is what the handled frames brought, each to the socket behind its address at that moment, in order |
| ServerStream.HandledByIsPartOfAll | libnymea-remoteproxy/tunnelproxy/tunnelproxyserver.cpp:405-434 | the frames of one socket are the last of those of the whole run that come from it |
| ServerStream.ClientsHearTheStream | libnymea-remoteproxy/tunnelproxy/tunnelproxyserver.cpp:417-433 | over whole runs a socket has been forwarded exactly what the handled frames brought that led to it, in order |
| ServerStream.ServerStreamArrivesExactly | libnymea-remoteproxy/tunnelproxy/tunnelproxyserver.cpp:405-434 | over whole runs, from the bytes a server wrote since its switch, with any events between and frames for anyone or nobody: each frame is handled once and in order and reaches whom it was meant for exactly as FrameArrivesExactly says; for held addresses the sum is what was meant if and only if no frame for a client holds a reserved byte |
| KeepAlive.NeverSilentForAMinute | libnymea-remoteproxy/tunnelproxy/tunnelproxyclient.cpp:124-133 | with delays under 15 s and nothing but answers sent, the proxy has always heard from the server less than 60 s ago |
| KeepAlive.TimeoutsHaveACause | libnymea-remoteproxyclient/tunnelproxy/tunnelproxysocketserver.cpp:192-193 | whatever the proxy sends: if the inactivity timer fires with delays under 15 s, something other than an answer reached the peer in the last 45 s |
| KeepAlive.NeverStuck | libnymea-remoteproxyclient/tunnelproxy/tunnelproxysocketserver.cpp:374-390 | time or a due event can always go on, so the statement is not empty |
| KeepAlive.KeepAliveSufficesExactly | libnymea-remoteproxyclient/tunnelproxy/tunnelproxysocketserver.cpp:374-390 | the inactivity timer never fires exactly when the proxy sends nothing but answers and one-way delays stay below 15 s |
| KeepAlive.TunnelledDataSilencesThePeer | libnymea-remoteproxyclient/tunnelproxy/tunnelproxysocketserver.cpp:192-193 | with tunnelled data every 25 s the timer fires, however fast the link is |

## Left out

- TCP, TLS, WebSocket and Unix socket servers and connections: a socket is a byte stream in chunks of any size.
- JSON parsing, printing, validation and method invocation, `JsonTypes` and `JsonHandler`: the codec and the reader are parameters.
- Asynchronous replies of the JSON server: no handler creates one.
- Reply ids in the client library beyond the constant id 0.
- `TunnelProxyRemoteConnection`: nothing but state changes before raw data.
- Receive and transmit counters, creation times, names beyond registration, kill reasons, error codes and `currentStatistics`: they decide nothing.
- The inactivity timer of a socket as state: in the registry a kill by it may come at any moment; `KeepAlive` says when it does not.
- `running` of the proxy, starting and stopping its transports.
- A kill that signals the disconnect of its own socket inside the call that issued it: it counts as the next event, or as a hangup after the item that caused it, so a notification may stand after a response it would precede.
- What the peer writes, its requests, pings and payloads: the proxy side takes them as given, in `Registry` as chunks and in `ServerToClients` and `ServerStream` as frames.
- Application code that calls back into the peer from a signal.
- Object lifetime beyond the tables, and overflow of the throughput counters and the notification id.
- Monitor, terminal interface, logging, configuration, command-line tools and packaging.
- TunnelProxySocketServer.TunnelProxySocketServer.OnReply: the failed branches ask the connection to close; the close is a later event, as it is when the socket signals it.
- ServerStream.ServerStreamArrivesExactly: assumes that nothing was left over at the switch, as when the server waits for its acceptance; with leftovers `ServerStream.StreamIsCut` says what is cut.
- EndToEnd.TunnelIsFaithful: starts from a peer that has just started running (`Handshake.HandshakeConnectsBoth`); a chunk is assumed to end where the accepted registration does.
- Handshake.HandshakeConnectsBoth: the peer's two requests are taken as the chunks the proxy reads; the model does not write them.
