/** Who hears whom through the proxy, what is left of a server that has gone, and where the
    chunks of a session come from. */
module RegistryRouting {
  import opened Bytes
  import opened Sessions
  import opened Messages
  import opened AddressAllocator
  import opened Registry
  import opened RegistryInvariant
  import opened RegistryRuns
  import opened RegistryWrites
  import JsonStream
  import Framing
  import SlipDataProcessor

  // ---------------------------------------------------------------- routing

  /** No two clients of a server share an address. */
  lemma AddressesAreNeverShared(r: State, u: Uuid, a: u16, c: Uuid, d: Uuid)
    requires Inv(r) && IsAttachedTo(r, c, u, a) && IsAttachedTo(r, d, u, a)
    ensures c == d && a != JSON_ADDRESS && a != NO_ADDRESS
  {
    assert IsSettled(r, c) && IsSettled(r, d);
    assert IsLinked(r, c);
  }

  /** A frame with an address reaches the one client that holds this address on this very
      server, with the payload as parsed, and nobody if there is no such client. */
  lemma FramesReachTheirClientOnly(read: bytes -> Request, r: State, id: ClientId, raw: bytes)
    requires Inv(r) && Listed(r, id) && r.transports[id].kind == TypeServer
    requires SlipDataProcessor.Parsed(raw).socketAddress != JSON_ADDRESS
    ensures var f, u := SlipDataProcessor.Parsed(raw), r.transports[id].uuid;
            (forall c :: IsAttachedTo(r, c, u, f.socketAddress)
               ==> HandleFrame(read, r, id, raw).log == r.log + [Sent(r.clients[c].transport, Forward(f.data))])
            && ((forall c :: !IsAttachedTo(r, c, u, f.socketAddress)) ==> HandleFrame(read, r, id, raw) == r)
  {
    var f, u := SlipDataProcessor.Parsed(raw), r.transports[id].uuid;
    assert IsHeld(r, id);
    forall c | IsAttachedTo(r, c, u, f.socketAddress)
      ensures HandleFrame(read, r, id, raw).log == r.log + [Sent(r.clients[c].transport, Forward(f.data))]
    {
      assert IsSettled(r, c);
    }
    if f.socketAddress in r.servers[u].byAddress {
      assert IsIndexed(r, u, f.socketAddress);
      assert IsAttachedTo(r, r.servers[u].byAddress[f.socketAddress], u, f.socketAddress);
    }
  }

  /** A client's chunk goes to the server it is attached to and to no one else, under the
      address on which that server knows this client. */
  lemma ChunksReachTheirServerOnly(read: bytes -> Request, r: State, id: ClientId, data: bytes,
                                   hangups: seq<seq<ClientId>>)
    requires Inv(r) && Listed(r, id) && r.transports[id].kind == TypeClient
    ensures var c, r' := r.transports[id].uuid, Receive(read, r, id, data, hangups);
            c in r.clients && r.clients[c].transport == id
            && match r.clients[c].server
               case None => r' == r
               case Some(u) =>
                 && u in r.servers
                 && r'.log == r.log + [Sent(r.servers[u].transport, Tunnel(r.clients[c].address, data))]
                 && r.servers[u].byAddress.Keys >= {r.clients[c].address}
                 && r.servers[u].byAddress[r.clients[c].address] == c
  {
    assert IsHeld(r, id) && IsLinked(r, r.transports[id].uuid) && IsSettled(r, r.transports[id].uuid);
  }

  // ---------------------------------------------------------------- teardown

  /** When a server's socket closes no client points to it any more, every client it had is
      an orphan that has been killed, and other servers keep theirs. */
  lemma TeardownOrphansAndKills(r: State, id: ClientId)
    requires Sound(r) && Listed(r, id) && r.transports[id].kind == TypeServer
    ensures var u, r' := r.transports[id].uuid, Disconnect(r, id);
            && u !in r'.servers && !Listed(r', id)
            && (forall c :: c in r'.clients ==> r'.clients[c].server != Some(u))
            && (forall c :: c in r.clients && r.clients[c].server == Some(u) ==>
                  c in r'.clients && r'.clients[c].server == None && IsKilled(r'.log, r.clients[c].transport))
            && (forall c :: c in r.clients && r.clients[c].server != Some(u) ==>
                c in r'.clients && r'.clients[c] == r.clients[c])
  {
    var u, r' := r.transports[id].uuid, Disconnect(r, id);
    var ids := DisconnectServerIs(r, id);
    ServerGoneLinks(r, r', id, u, ids);
    MembersAreAttached(r, u);
    forall c | c in r.clients && r.clients[c].server == Some(u)
      ensures r'.clients[c].server == None && IsKilled(r'.log, r.clients[c].transport)
    {
      assert IsLinked(r', c);
    }
  }

  lemma MembersAreAttached(r: State, u: Uuid)
    requires Links(r) && u in r.servers
    ensures forall c :: c in r.clients ==> (c in r.servers[u].byUuid <==> r.clients[c].server == Some(u))
  {
    forall c | c in r.clients ensures c in r.servers[u].byUuid <==> r.clients[c].server == Some(u) {
      assert IsLinked(r, c);
    }
  }

  /** The server behind a socket that is still being read has gone. */
  ghost predicate Torn(r: State, id: ClientId) {
    id in r.transports && !r.transports[id].listed && r.transports[id].uuid !in r.servers
  }

  lemma TornPacket(read: bytes -> Request, r: State, id: ClientId, packet: bytes)
    requires Torn(r, id)
    ensures Torn(HandlePacket(read, r, id, packet), id)
  {
    match read(packet)
    case Unusable(n) =>
    case Call(n, p) =>
      assert Invoke(r, id, p).0 == r;
  }

  lemma TornFrame(read: bytes -> Request, r: State, id: ClientId, raw: bytes)
    requires Torn(r, id)
    ensures Torn(HandleFrame(read, r, id, raw), id)
    ensures Writes(r.log, HandleFrame(read, r, id, raw).log, false)
  {
    TornPacket(read, r, id, SlipDataProcessor.Parsed(raw).data);
    HandlePacketWrites(read, r, id, SlipDataProcessor.Parsed(raw).data);
  }

  lemma TornDisconnect(r: State, gone: ClientId, id: ClientId)
    requires Torn(r, id)
    ensures Torn(Disconnect(r, gone), id)
  {
    var r' := Disconnect(r, gone);
    if r.transports[id].uuid in r'.servers {
      DisconnectShrinks(r, gone, r.transports[id].uuid);
    }
    if Listed(r, gone) {
      assert r'.transports == Unlist(r, gone).transports;
    }
  }

  lemma {:induction false} TornDisconnectAll(r: State, ids: seq<ClientId>, id: ClientId)
    requires Torn(r, id)
    ensures Torn(DisconnectAll(r, ids), id)
  {
    if ids != [] {
      var n := |ids| - 1;
      TornDisconnectAll(r, ids[..n], id);
      TornDisconnect(DisconnectAll(r, ids[..n]), ids[n], id);
    }
  }

  /** Among the sockets that close is the server's own. */
  lemma {:induction false} HangupTears(r: State, ids: seq<ClientId>, id: ClientId)
    requires Sound(r) && ServerOrTorn(r, id) && id in ids
    ensures Torn(DisconnectAll(r, ids), id)
  {
    var n := |ids| - 1;
    var r1 := DisconnectAll(r, ids[..n]);
    DisconnectAllKeeps(r, ids[..n]);
    if id in ids[..n] {
      HangupTears(r, ids[..n], id);
      TornDisconnect(r1, ids[n], id);
    } else {
      DisconnectAllServer(r, ids[..n], id);
      if Torn(r1, id) {
        TornDisconnect(r1, ids[n], id);
      } else {
        CloseTears(r1, id);
      }
    }
  }

  lemma CloseTears(r: State, id: ClientId)
    requires Sound(r) && Listed(r, id) && r.transports[id].kind == TypeServer
    ensures Torn(Disconnect(r, id), id)
  {
    var ids := DisconnectServerIs(r, id);
    DisconnectAt(r, id);
  }

  lemma DisconnectAt(r: State, id: ClientId)
    requires Listed(r, id)
    ensures id in Disconnect(r, id).transports
    ensures Disconnect(r, id).transports[id] == r.transports[id].(listed := false)
  {
    assert Disconnect(r, id).transports == Unlist(r, id).transports;
  }

  ghost predicate ServerOrTorn(r: State, id: ClientId) {
    Torn(r, id) || (Listed(r, id) && r.transports[id].kind == TypeServer)
  }

  lemma DisconnectServer(r: State, gone: ClientId, id: ClientId)
    requires Sound(r) && ServerOrTorn(r, id)
    ensures ServerOrTorn(Disconnect(r, gone), id)
  {
    if Torn(r, id) {
      TornDisconnect(r, gone, id);
    } else if gone == id {
      CloseTears(r, id);
    } else if Listed(r, gone) {
      DisconnectElsewhere(r, gone, id);
    }
  }

  lemma DisconnectElsewhere(r: State, gone: ClientId, id: ClientId)
    requires Listed(r, gone) && Listed(r, id) && gone != id
    ensures Listed(Disconnect(r, gone), id) && Disconnect(r, gone).transports[id] == r.transports[id]
  {
    assert Disconnect(r, gone).transports == Unlist(r, gone).transports;
  }

  lemma {:induction false} DisconnectAllServer(r: State, ids: seq<ClientId>, id: ClientId)
    requires Sound(r) && ServerOrTorn(r, id)
    ensures ServerOrTorn(DisconnectAll(r, ids), id)
  {
    if ids != [] {
      var n := |ids| - 1;
      DisconnectAllKeeps(r, ids[..n]);
      DisconnectAllServer(r, ids[..n], id);
      DisconnectServer(DisconnectAll(r, ids[..n]), ids[n], id);
    }
  }

  /** Once the server of a chunk is gone, what is left of the chunk reaches no client. */
  lemma {:induction false} TornChunk(read: bytes -> Request, r: State, id: ClientId, items: seq<bytes>,
                                     hangups: seq<seq<ClientId>>, k: nat)
    requires k <= |items| && Torn(HandleItems(read, r, id, items[..k], true, hangups), id)
    ensures Torn(HandleItems(read, r, id, items, true, hangups), id)
    ensures Writes(HandleItems(read, r, id, items[..k], true, hangups).log,
                   HandleItems(read, r, id, items, true, hangups).log, false)
    decreases |items|
  {
    if k == |items| {
      assert items[..k] == items;
    } else {
      var n := |items| - 1;
      assert items[..n][..k] == items[..k];
      TornChunk(read, r, id, items[..n], hangups, k);
      var r1 := HandleItems(read, r, id, items[..n], true, hangups);
      TornFrame(read, r1, id, items[n]);
      var r2 := HandleFrame(read, r1, id, items[n]);
      TornDisconnectAll(r2, Hangups(hangups, n), id);
      DisconnectAllWrites(r2, Hangups(hangups, n));
      WritesChain(r1.log, r2.log, DisconnectAll(r2, Hangups(hangups, n)).log, false);
      WritesChain(HandleItems(read, r, id, items[..k], true, hangups).log, r1.log,
                  DisconnectAll(r2, Hangups(hangups, n)).log, false);
    }
  }

  lemma HandlePacketServer(read: bytes -> Request, r: State, id: ClientId, packet: bytes)
    requires Sound(r) && ServerOrTorn(r, id)
    ensures ServerOrTorn(HandlePacket(read, r, id, packet), id)
  {
    if Torn(r, id) {
      TornPacket(read, r, id, packet);
    } else {
      match read(packet)
      case Unusable(n) =>
      case Call(n, p) => InvokeServer(r, id, p);
    }
  }

  lemma InvokeServer(r: State, id: ClientId, p: Procedure)
    requires Listed(r, id) && r.transports[id].kind == TypeServer
    ensures Listed(Invoke(r, id, p).0, id) && Invoke(r, id, p).0.transports[id].kind == TypeServer
  {
  }

  lemma HandleFrameServer(read: bytes -> Request, r: State, id: ClientId, raw: bytes)
    requires Sound(r) && ServerOrTorn(r, id)
    ensures ServerOrTorn(HandleFrame(read, r, id, raw), id)
  {
    HandlePacketServer(read, r, id, SlipDataProcessor.Parsed(raw).data);
  }

  lemma {:induction false} HandleItemsServer(read: bytes -> Request, r: State, id: ClientId, items: seq<bytes>,
                                             hangups: seq<seq<ClientId>>)
    requires Sound(r) && ServerOrTorn(r, id)
    ensures ServerOrTorn(HandleItems(read, r, id, items, true, hangups), id)
  {
    if items != [] {
      var n := |items| - 1;
      HandleItemsKeeps(read, r, id, items[..n], true, hangups);
      HandleItemsServer(read, r, id, items[..n], hangups);
      var r1 := HandleItems(read, r, id, items[..n], true, hangups);
      HandleFrameKeeps(read, r1, id, items[n]);
      HandleFrameServer(read, r1, id, items[n]);
      DisconnectAllServer(HandleFrame(read, r1, id, items[n]), Hangups(hangups, n), id);
    }
  }

  /** A server whose socket closes while frame i of its own chunk is handled: none of the
      frames after i is delivered to any client. */
  lemma FramesAfterTeardownAreNotDelivered(read: bytes -> Request, r: State, id: ClientId, items: seq<bytes>,
                                           hangups: seq<seq<ClientId>>, i: nat)
    requires Sound(r) && Listed(r, id) && r.transports[id].kind == TypeServer
    requires i < |items| && id in Hangups(hangups, i)
    ensures Writes(HandleItems(read, r, id, items[..i + 1], true, hangups).log,
                   HandleItems(read, r, id, items, true, hangups).log, false)
  {
    assert items[..i + 1][..i] == items[..i];
    HandleItemsKeeps(read, r, id, items[..i], true, hangups);
    HandleItemsServer(read, r, id, items[..i], hangups);
    var r1 := HandleItems(read, r, id, items[..i], true, hangups);
    HandleFrameKeeps(read, r1, id, items[i]);
    HandleFrameServer(read, r1, id, items[i]);
    HangupTears(HandleFrame(read, r1, id, items[i]), Hangups(hangups, i), id);
    TornChunk(read, r, id, items, hangups, i + 1);
  }

  // ---------------------------------------------------------------- where chunks come from

  predicate IsAttached(r: State, id: ClientId) {
    Listed(r, id) && r.transports[id].kind == TypeClient && r.transports[id].uuid in r.clients
    && r.clients[r.transports[id].uuid].server.Some?
  }

  /** The chunks a socket has delivered while it was an attached client, since it opened. */
  function Handed(read: bytes -> Request, es: seq<Event>, id: ClientId): seq<bytes> {
    if es == [] then [] else
      NextHanded(Handed(read, es[..|es| - 1], id), Run(read, es[..|es| - 1]), es[|es| - 1], id)
  }

  function NextHanded(before: seq<bytes>, r: State, e: Event, id: ClientId): seq<bytes> {
    if e.Data? && e.id == id && IsAttached(r, id) then before + [e.data]
    else if e.Connected? && e.id == id && !Listed(r, id) then []
    else before
  }

  function FedOf(r: State, id: ClientId): seq<bytes> {
    if Listed(r, id) && r.transports[id].kind == TypeClient && r.transports[id].uuid in r.clients
    then r.clients[r.transports[id].uuid].fed else []
  }

  /** Nobody's history changes, and nobody new is listed. */
  ghost predicate SameFed(r: State, r': State) {
    forall i :: Listed(r', i) ==> Listed(r, i) && FedOf(r', i) == FedOf(r, i)
  }

  lemma SameHoldersFeed(r: State, r': State)
    requires r'.clients == r.clients && SameHolders(r, r')
    ensures SameFed(r, r')
  {
    forall i | Listed(r', i) ensures Listed(r, i) && FedOf(r', i) == FedOf(r, i) {
      assert SameHolder(r.transports[i], r'.transports[i]);
    }
  }

  lemma SameFedChains(r: State, r1: State, r2: State)
    requires SameFed(r, r1) && SameFed(r1, r2)
    ensures SameFed(r, r2)
  {
  }

  lemma AddServerFeeds(r: State, id: ClientId, u: Uuid, name: string)
    requires Listed(r, id) && r.transports[id].kind == TypeNone
    ensures SameFed(r, AddServer(r, id, u, name))
  {
  }

  lemma AddClientFeeds(r: State, id: ClientId, c: Uuid, name: string, u: Uuid)
    requires Tables(r) && Listed(r, id) && r.transports[id].kind == TypeNone && c !in r.clients && u in r.servers
    ensures SameFed(r, AddClient(r, id, c, name, u))
  {
    var r' := AddClient(r, id, c, name, u);
    forall i | Listed(r', i) ensures Listed(r, i) && FedOf(r', i) == FedOf(r, i) {
      assert IsHeld(r, i);
    }
  }

  lemma InvokeFeeds(r: State, id: ClientId, p: Procedure)
    requires Tables(r)
    ensures SameFed(r, Invoke(r, id, p).0)
  {
    var (r', reply) := Invoke(r, id, p);
    match reply
    case ServerRegistration(NoError) => AddServerFeeds(r, id, p.serverUuid, p.serverName);
    case ClientRegistration(NoError) => AddClientFeeds(r, id, p.clientUuid, p.clientName, p.serverUuid);
    case _ => SameHoldersFeed(r, r');
  }

  lemma HandlePacketFeeds(read: bytes -> Request, r: State, id: ClientId, packet: bytes)
    requires Tables(r)
    ensures SameFed(r, HandlePacket(read, r, id, packet))
  {
    match read(packet)
    case Unusable(n) => SameHoldersFeed(r, HandlePacket(read, r, id, packet));
    case Call(n, p) =>
      InvokeFeeds(r, id, p);
      var r1 := Invoke(r, id, p).0;
      SameHoldersFeed(r1, HandlePacket(read, r, id, packet));
      SameFedChains(r, r1, HandlePacket(read, r, id, packet));
  }

  lemma HandleFrameFeeds(read: bytes -> Request, r: State, id: ClientId, raw: bytes)
    requires Tables(r)
    ensures SameFed(r, HandleFrame(read, r, id, raw))
  {
    var frame := SlipDataProcessor.Parsed(raw);
    if frame.socketAddress == JSON_ADDRESS {
      HandlePacketFeeds(read, r, id, frame.data);
    } else {
      SameHoldersFeed(r, HandleFrame(read, r, id, raw));
    }
  }

  lemma DisconnectFeeds(r: State, gone: ClientId)
    requires Tables(r)
    ensures SameFed(r, Disconnect(r, gone))
  {
    var r' := Disconnect(r, gone);
    forall i | Listed(r', i) ensures Listed(r, i) && FedOf(r', i) == FedOf(r, i) {
      DisconnectListed(r, gone, i);
      assert IsHeld(r, i);
      if Listed(r, gone) {
        var t, r1 := r.transports[gone], Unlist(r, gone);
        if t.kind == TypeServer && t.uuid in r.servers {
          assert r' == DropServer(r1, t.uuid);
        } else if t.kind == TypeClient && t.uuid in r.clients {
          assert IsHeld(r, gone);
          assert r' == DropClient(r1, t.uuid);
          assert r'.clients == r.clients - {t.uuid};
        }
      }
    }
  }

  lemma {:induction false} DisconnectAllFeeds(r: State, ids: seq<ClientId>)
    requires Sound(r)
    ensures SameFed(r, DisconnectAll(r, ids))
  {
    if ids != [] {
      var n := |ids| - 1;
      DisconnectAllKeeps(r, ids[..n]);
      DisconnectAllFeeds(r, ids[..n]);
      DisconnectFeeds(DisconnectAll(r, ids[..n]), ids[n]);
    }
  }

  lemma {:induction false} HandleItemsFeeds(read: bytes -> Request, r: State, id: ClientId, items: seq<bytes>,
                                            slip: bool, hangups: seq<seq<ClientId>>)
    requires Sound(r)
    ensures SameFed(r, HandleItems(read, r, id, items, slip, hangups))
  {
    if items != [] {
      var n := |items| - 1;
      HandleItemsKeeps(read, r, id, items[..n], slip, hangups);
      HandleItemsFeeds(read, r, id, items[..n], slip, hangups);
      var r1 := HandleItems(read, r, id, items[..n], slip, hangups);
      var r2 := if slip then HandleFrame(read, r1, id, items[n]) else HandlePacket(read, r1, id, items[n]);
      if slip {
        HandleFrameKeeps(read, r1, id, items[n]);
        HandleFrameFeeds(read, r1, id, items[n]);
      } else {
        HandlePacketKeeps(read, r1, id, items[n]);
        HandlePacketFeeds(read, r1, id, items[n]);
      }
      DisconnectAllFeeds(r2, Hangups(hangups, n));
      SameFedChains(r, r1, r2);
    }
  }

  lemma ReceiveTunnelFeeds(r: State, id: ClientId, data: bytes)
    requires Sound(r) && Listed(r, id) && r.transports[id].kind == TypeClient
    ensures var r' := ReceiveTunnel(r, r.transports[id].uuid, data);
            forall i :: Listed(r', i) ==>
              Listed(r, i) && FedOf(r', i) == FedOf(r, i) + if i == id && IsAttached(r, id) then [data] else []
  {
    var c := r.transports[id].uuid;
    var r' := ReceiveTunnel(r, c, data);
    assert IsHeld(r, id) && IsLinked(r, c);
    forall i | Listed(r', i)
      ensures Listed(r, i) && FedOf(r', i) == FedOf(r, i) + if i == id && IsAttached(r, id) then [data] else []
    {
      assert IsHeld(r, i);
    }
  }

  lemma ReceiveJsonFeeds(read: bytes -> Request, r: State, id: ClientId, data: bytes, hangups: seq<seq<ClientId>>)
    requires Sound(r) && id in r.transports
    ensures SameFed(r, ReceiveJson(read, r, id, data, hangups))
  {
    var s := JsonStream.Ingest(r.transports[id].buffer, data);
    var r1 := WithBuffer(r, id, s.buffer);
    SameHoldersFeed(r, r);
    if id in r.jsonClients {
      if |s.buffer| > MAX_BUFFER {
        SameHoldersFeed(r, Kill(r1, id));
      } else {
        RetouchKeeps(r, id, r.transports[id].(buffer := s.buffer));
        SameHoldersFeed(r, r1);
        HandleItemsFeeds(read, r1, id, s.Packets(), false, hangups);
        SameFedChains(r, r1, HandleItems(read, r1, id, s.Packets(), false, hangups));
      }
    }
  }

  lemma ReceiveSlipFeeds(read: bytes -> Request, r: State, id: ClientId, data: bytes, hangups: seq<seq<ClientId>>)
    requires Sound(r) && id in r.transports
    ensures SameFed(r, ReceiveSlip(read, r, id, data, hangups))
  {
    var s := Framing.Assemble(r.transports[id].buffer, data);
    RetouchKeeps(r, id, r.transports[id].(buffer := s.buffer));
    var r1 := WithBuffer(r, id, s.buffer);
    SameHoldersFeed(r, r1);
    HandleItemsFeeds(read, r1, id, s.frames, true, hangups);
    SameFedChains(r, r1, HandleItems(read, r1, id, s.frames, true, hangups));
  }

  /** Only a chunk from an attached client adds to a history, and only to its own. */
  lemma StepFeeds(read: bytes -> Request, r: State, e: Event, id: ClientId)
    requires Sound(r) && Listed(Step(read, r, e), id)
    ensures Listed(r, id) ==> FedOf(Step(read, r, e), id) == NextHanded(FedOf(r, id), r, e, id)
    ensures !Listed(r, id) ==> FedOf(Step(read, r, e), id) == [] && e.Connected? && e.id == id
  {
    match e
    case Data(i, data, hangups) =>
      if Listed(r, i) {
        if r.transports[i].kind == TypeClient {
          ReceiveTunnelFeeds(r, i, data);
        } else if r.transports[i].kind == TypeServer && r.transports[i].slip {
          ReceiveSlipFeeds(read, r, i, data, hangups);
        } else {
          ReceiveJsonFeeds(read, r, i, data, hangups);
        }
      }
    case Disconnected(i) => DisconnectFeeds(r, i);
    case Connected(i, peer) => ConnectFeeds(r, i, peer, id);
    case Inactive(i) =>
    case Tick =>
  }

  lemma ConnectFeeds(r: State, i: ClientId, peer: string, id: ClientId)
    requires Listed(Connect(r, i, peer), id)
    ensures Listed(r, id) ==> FedOf(Connect(r, i, peer), id) == FedOf(r, id)
    ensures !Listed(r, id) ==> FedOf(Connect(r, i, peer), id) == [] && i == id
  {
  }

  /** Every history in the tables is exactly what the socket delivered. */
  lemma {:induction false} HistoriesAreWhatWasHanded(read: bytes -> Request, es: seq<Event>, id: ClientId)
    requires Listed(Run(read, es), id)
    ensures FedOf(Run(read, es), id) == Handed(read, es, id)
  {
    if es != [] {
      var n := |es| - 1;
      RunIsSound(read, es[..n]);
      StepFeeds(read, Run(read, es[..n]), es[n], id);
      if Listed(Run(read, es[..n]), id) {
        HistoriesAreWhatWasHanded(read, es[..n], id);
      }
    }
  }

  /** Multiplexing, over whole runs: on the socket of a server, the session of an attached
      client carries exactly the chunks that client delivered, in order. */
  lemma SessionsCarryWhatWasHanded(read: bytes -> Request, es: seq<Event>, c: Uuid)
    requires Admissible(read, es)
    requires c in Run(read, es).clients && Run(read, es).clients[c].server.Some?
    ensures var r := Run(read, es);
            var client := r.clients[c];
            client.server.value in r.servers
            && var board := Track(Story(Outbox(r.log, r.servers[client.server.value].transport)));
               board.Some? && client.address in board.value
               && board.value[client.address] == Session(c, Handed(read, es, client.transport))
  {
    RunKeeps(read, es);
    var r := Run(read, es);
    assert IsLinked(r, c);
    assert HoldsTransport(r, r.clients[c].transport, TypeClient, c);
    var u := r.clients[c].server.value;
    assert Shows(Seen(r.log, r.servers[u].transport), r, u);
    HistoriesAreWhatWasHanded(read, es, r.clients[c].transport);
  }
}
