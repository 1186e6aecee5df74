/** What a client hears once its server has gone: nothing but answers to its own requests,
    however long its socket stays open. */
module RegistryOrphans {
  import opened Bytes
  import opened Messages
  import opened AddressAllocator
  import opened Registry
  import opened RegistryInvariant
  import opened RegistryRuns
  import JsonStream
  import Framing
  import SlipDataProcessor

  /** The socket is closed, or belongs to a client without a server. */
  predicate CutOff(r: State, k: ClientId) {
    Listed(r, k) ==>
      r.transports[k].kind == TypeClient && r.transports[k].uuid in r.clients
          && r.clients[r.transports[k].uuid].server.None?
  }

  /** Between two logs the socket was sent nothing but answers. */
  ghost predicate OnlyAnswersTo(k: ClientId, log: seq<Entry>, log': seq<Entry>) {
    log <= log' && forall n :: |log| <= n < |log'| && log'[n].Sent? && log'[n].to == k ==> log'[n].message.IsAnswer()
  }

  ghost predicate StaysCutOff(r: State, r': State, k: ClientId) {
    OnlyAnswersTo(k, r.log, r'.log) && CutOff(r', k)
  }

  lemma CutOffChains(r: State, r1: State, r2: State, k: ClientId)
    requires StaysCutOff(r, r1, k) && StaysCutOff(r1, r2, k)
    ensures StaysCutOff(r, r2, k)
  {
    forall n | |r.log| <= n < |r2.log| && r2.log[n].Sent? && r2.log[n].to == k ensures r2.log[n].message.IsAnswer() {
      assert n < |r1.log| ==> r2.log[n] == r1.log[n];
    }
  }

  /** A connected server, or a client with a server, is somebody else. */
  lemma ServerIsAnother(r: State, u: Uuid, k: ClientId)
    requires Tables(r) && CutOff(r, k) && u in r.servers
    ensures r.servers[u].transport != k
  {
    assert HoldsTransport(r, r.servers[u].transport, TypeServer, u);
  }

  lemma AttachedIsAnother(r: State, c: Uuid, k: ClientId)
    requires Tables(r) && CutOff(r, k) && c in r.clients && r.clients[c].server.Some?
    ensures r.clients[c].transport != k
  {
    assert HoldsTransport(r, r.clients[c].transport, TypeClient, c);
  }

  /** Changes of flags and answers leave it as it is. */
  lemma SameCutOff(r: State, r': State, k: ClientId)
    requires CutOff(r, k) && r'.clients == r.clients && SameHolders(r, r') && OnlyAnswersTo(k, r.log, r'.log)
    ensures StaysCutOff(r, r', k)
  {
    if Listed(r', k) {
      assert SameHolder(r.transports[k], r'.transports[k]);
    }
  }

  lemma AddServerCutOff(r: State, id: ClientId, u: Uuid, name: string, k: ClientId)
    requires CutOff(r, k) && Listed(r, id) && r.transports[id].kind == TypeNone
    ensures StaysCutOff(r, AddServer(r, id, u, name), k)
  {
  }

  lemma AddClientCutOff(r: State, id: ClientId, c: Uuid, name: string, u: Uuid, k: ClientId)
    requires Tables(r) && CutOff(r, k) && Listed(r, id) && r.transports[id].kind == TypeNone && c !in r.clients
    requires u in r.servers
    ensures StaysCutOff(r, AddClient(r, id, c, name, u), k)
  {
    ServerIsAnother(r, u, k);
  }

  lemma InvokeCutOff(r: State, id: ClientId, p: Procedure, k: ClientId)
    requires Tables(r) && CutOff(r, k)
    ensures StaysCutOff(r, Invoke(r, id, p).0, k)
  {
    var (r', reply) := Invoke(r, id, p);
    match reply
    case ServerRegistration(NoError) => AddServerCutOff(r, id, p.serverUuid, p.serverName, k);
    case ClientRegistration(NoError) => AddClientCutOff(r, id, p.clientUuid, p.clientName, p.serverUuid, k);
    case _ => SameCutOff(r, r', k);
  }

  lemma HandlePacketCutOff(read: bytes -> Request, r: State, id: ClientId, packet: bytes, k: ClientId)
    requires Tables(r) && CutOff(r, k)
    ensures StaysCutOff(r, HandlePacket(read, r, id, packet), k)
  {
    match read(packet)
    case Unusable(n) => SameCutOff(r, HandlePacket(read, r, id, packet), k);
    case Call(n, p) =>
      InvokeCutOff(r, id, p, k);
      var r1 := Invoke(r, id, p).0;
      SameCutOff(r1, HandlePacket(read, r, id, packet), k);
      CutOffChains(r, r1, HandlePacket(read, r, id, packet), k);
  }

  lemma HandleFrameCutOff(read: bytes -> Request, r: State, id: ClientId, raw: bytes, k: ClientId)
    requires Tables(r) && Links(r) && CutOff(r, k)
    ensures StaysCutOff(r, HandleFrame(read, r, id, raw), k)
  {
    var frame := SlipDataProcessor.Parsed(raw);
    if frame.socketAddress == JSON_ADDRESS {
      HandlePacketCutOff(read, r, id, frame.data, k);
    } else {
      if id in r.transports && r.transports[id].uuid in r.servers {
        var u := r.transports[id].uuid;
        if frame.socketAddress in r.servers[u].byAddress {
          assert IsIndexed(r, u, frame.socketAddress);
          AttachedIsAnother(r, r.servers[u].byAddress[frame.socketAddress], k);
        }
      }
      SameCutOff(r, HandleFrame(read, r, id, raw), k);
    }
  }

  lemma DisconnectCutOff(r: State, gone: ClientId, k: ClientId)
    requires Tables(r) && CutOff(r, k)
    ensures StaysCutOff(r, Disconnect(r, gone), k)
  {
    if Listed(r, gone) {
      var t, r1, r' := r.transports[gone], Unlist(r, gone), Disconnect(r, gone);
      assert IsHeld(r, gone);
      assert Listed(r, k) ==> IsHeld(r, k);
      if t.kind == TypeServer && t.uuid in r.servers {
        assert r' == DropServer(r1, t.uuid);
      } else if t.kind == TypeClient && t.uuid in r.clients {
        assert r' == DropClient(r1, t.uuid);
        DropClientCutOff(r, r1, t.uuid, k);
      }
    }
  }

  lemma DropClientCutOff(r: State, r1: State, c: Uuid, k: ClientId)
    requires Tables(r) && CutOff(r, k) && c in r.clients && r1 == Unlist(r, r.clients[c].transport)
    ensures StaysCutOff(r, DropClient(r1, c), k)
  {
    assert HoldsTransport(r, r.clients[c].transport, TypeClient, c);
    assert Listed(r, k) ==> IsHeld(r, k);
    if r.clients[c].server.Some? && r.clients[c].server.value in r.servers {
      ServerIsAnother(r, r.clients[c].server.value, k);
    }
  }

  lemma {:induction false} DisconnectAllCutOff(r: State, ids: seq<ClientId>, k: ClientId)
    requires Sound(r) && CutOff(r, k)
    ensures StaysCutOff(r, DisconnectAll(r, ids), k)
  {
    if ids != [] {
      var n := |ids| - 1;
      DisconnectAllKeeps(r, ids[..n]);
      DisconnectAllCutOff(r, ids[..n], k);
      DisconnectCutOff(DisconnectAll(r, ids[..n]), ids[n], k);
      CutOffChains(r, DisconnectAll(r, ids[..n]), DisconnectAll(r, ids), k);
    }
  }

  lemma {:induction false} HandleItemsCutOff(read: bytes -> Request, r: State, id: ClientId, items: seq<bytes>,
                                             slip: bool, hangups: seq<seq<ClientId>>, k: ClientId)
    requires Sound(r) && CutOff(r, k)
    ensures StaysCutOff(r, HandleItems(read, r, id, items, slip, hangups), k)
  {
    if items != [] {
      var n := |items| - 1;
      HandleItemsKeeps(read, r, id, items[..n], slip, hangups);
      HandleItemsCutOff(read, r, id, items[..n], slip, hangups, k);
      var r1 := HandleItems(read, r, id, items[..n], slip, hangups);
      var r2 := if slip then HandleFrame(read, r1, id, items[n]) else HandlePacket(read, r1, id, items[n]);
      if slip {
        HandleFrameKeeps(read, r1, id, items[n]);
        HandleFrameCutOff(read, r1, id, items[n], k);
      } else {
        HandlePacketKeeps(read, r1, id, items[n]);
        HandlePacketCutOff(read, r1, id, items[n], k);
      }
      DisconnectAllCutOff(r2, Hangups(hangups, n), k);
      CutOffChains(r, r1, r2, k);
      CutOffChains(r, r2, HandleItems(read, r, id, items, slip, hangups), k);
    }
  }

  lemma ReceiveTunnelCutOff(r: State, c: Uuid, data: bytes, k: ClientId)
    requires Tables(r) && CutOff(r, k)
    ensures StaysCutOff(r, ReceiveTunnel(r, c, data), k)
  {
    if c in r.clients && r.clients[c].server.Some? && r.clients[c].server.value in r.servers {
      ServerIsAnother(r, r.clients[c].server.value, k);
    }
  }

  lemma ReceiveJsonCutOff(read: bytes -> Request, r: State, id: ClientId, data: bytes, hangups: seq<seq<ClientId>>,
                          k: ClientId)
    requires Sound(r) && id in r.transports && CutOff(r, k)
    ensures StaysCutOff(r, ReceiveJson(read, r, id, data, hangups), k)
  {
    var s := JsonStream.Ingest(r.transports[id].buffer, data);
    var r1 := WithBuffer(r, id, s.buffer);
    if id in r.jsonClients {
      RetouchKeeps(r, id, r.transports[id].(buffer := s.buffer));
      SameCutOff(r, r1, k);
      if |s.buffer| <= MAX_BUFFER {
        HandleItemsCutOff(read, r1, id, s.Packets(), false, hangups, k);
        CutOffChains(r, r1, HandleItems(read, r1, id, s.Packets(), false, hangups), k);
      } else {
        SameCutOff(r, Kill(r1, id), k);
      }
    }
  }

  lemma ReceiveSlipCutOff(read: bytes -> Request, r: State, id: ClientId, data: bytes, hangups: seq<seq<ClientId>>,
                          k: ClientId)
    requires Sound(r) && id in r.transports && CutOff(r, k)
    ensures StaysCutOff(r, ReceiveSlip(read, r, id, data, hangups), k)
  {
    var s := Framing.Assemble(r.transports[id].buffer, data);
    var r1 := WithBuffer(r, id, s.buffer);
    RetouchKeeps(r, id, r.transports[id].(buffer := s.buffer));
    SameCutOff(r, r1, k);
    HandleItemsCutOff(read, r1, id, s.frames, true, hangups, k);
    CutOffChains(r, r1, HandleItems(read, r1, id, s.frames, true, hangups), k);
  }

  lemma ReceiveCutOff(read: bytes -> Request, r: State, id: ClientId, data: bytes, hangups: seq<seq<ClientId>>,
                      k: ClientId)
    requires Sound(r) && CutOff(r, k)
    ensures StaysCutOff(r, Receive(read, r, id, data, hangups), k)
  {
    if Listed(r, id) {
      match r.transports[id].kind
      case TypeClient => ReceiveTunnelCutOff(r, r.transports[id].uuid, data, k);
      case TypeServer =>
        ReceiveSlipCutOff(read, r, id, data, hangups, k);
        ReceiveJsonCutOff(read, r, id, data, hangups, k);
      case TypeNone => ReceiveJsonCutOff(read, r, id, data, hangups, k);
    }
  }

  predicate Reopens(r: State, e: Event, k: ClientId) {
    e.Connected? && e.id == k && !Listed(r, k)
  }

  lemma ConnectCutOff(r: State, id: ClientId, peer: string, k: ClientId)
    requires CutOff(r, k) && !Reopens(r, Connected(id, peer), k)
    ensures StaysCutOff(r, Connect(r, id, peer), k)
  {
  }

  lemma StepCutOff(read: bytes -> Request, r: State, e: Event, k: ClientId)
    requires Sound(r) && CutOff(r, k) && !Reopens(r, e, k)
    ensures StaysCutOff(r, Step(read, r, e), k)
  {
    match e
    case Connected(id, peer) => ConnectCutOff(r, id, peer, k);
    case Disconnected(id) => DisconnectCutOff(r, id, k);
    case Data(id, data, hangups) => ReceiveCutOff(read, r, id, data, hangups, k);
    case Inactive(id) =>
    case Tick =>
  }

  /** From event m on no new connection opens under id k. */
  ghost predicate NeverReopens(read: bytes -> Request, es: seq<Event>, m: nat, k: ClientId) {
    forall n: nat :: m <= n < |es| ==> !Reopens(Run(read, es[..n]), es[n], k)
  }

  lemma NeverReopensPrefix(read: bytes -> Request, es: seq<Event>, m: nat, k: ClientId)
    requires es != [] && NeverReopens(read, es, m, k)
    ensures NeverReopens(read, es[..|es| - 1], m, k)
  {
    var init := es[..|es| - 1];
    forall n: nat | m <= n < |init| ensures !Reopens(Run(read, init[..n]), init[n], k) {
      assert init[..n] == es[..n];
    }
  }

  /** From a moment on at which it has no server, a socket is sent no notification, no
      tunnelled chunk and no payload, whatever happens, until a new connection opens under
      its id. */
  lemma {:induction false} OrphansHearOnlyAnswers(read: bytes -> Request, es: seq<Event>, m: nat, k: ClientId)
    requires m <= |es| && CutOff(Run(read, es[..m]), k) && NeverReopens(read, es, m, k)
    ensures StaysCutOff(Run(read, es[..m]), Run(read, es), k)
    decreases |es|
  {
    if m == |es| {
      assert es[..m] == es;
    } else {
      var n := |es| - 1;
      NeverReopensPrefix(read, es, m, k);
      assert es[..n][..m] == es[..m];
      OrphansHearOnlyAnswers(read, es[..n], m, k);
      OneMoreEvent(read, es, k);
      CutOffChains(Run(read, es[..m]), Run(read, es[..n]), Run(read, es), k);
    }
  }

  lemma OneMoreEvent(read: bytes -> Request, es: seq<Event>, k: ClientId)
    requires es != [] && CutOff(Run(read, es[..|es| - 1]), k)
    requires !Reopens(Run(read, es[..|es| - 1]), es[|es| - 1], k)
    ensures StaysCutOff(Run(read, es[..|es| - 1]), Run(read, es), k)
  {
    var n := |es| - 1;
    RunIsSound(read, es[..n]);
    StepCutOff(read, Run(read, es[..n]), es[n], k);
  }
}
