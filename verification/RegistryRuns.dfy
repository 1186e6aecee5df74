/** The invariant over whole runs of the proxy, and what follows from it for anyone who
    reads a socket of the proxy. */
module RegistryRuns {
  import opened Bytes
  import opened Sessions
  import opened Messages
  import opened AddressAllocator
  import opened Registry
  import opened RegistryInvariant
  import JsonStream
  import Framing
  import SlipDataProcessor

  // ---------------------------------------------------------------- registrations

  /** A call that registers a client. */
  predicate Accepts(r: State, id: ClientId, p: Procedure) {
    && p.RegisterClient? && p.serverUuid != NULL_UUID && p.clientUuid != NULL_UUID
    && Listed(r, id) && r.transports[id].kind == TypeNone
    && p.clientUuid !in r.clients && p.clientUuid !in r.servers && p.serverUuid in r.servers
  }

  /** These are the calls that are answered with an acceptance, and no others. */
  lemma AcceptsExactly(r: State, id: ClientId, p: Procedure)
    ensures Accepts(r, id, p) <==> Invoke(r, id, p).1 == ClientRegistration(NoError)
  {
  }

  /** The server connection an accepted registration finds, before it takes an address. */
  function JoinOf(r: State, id: ClientId, p: Procedure): seq<ServerConnection> {
    if Accepts(r, id, p) then [r.servers[p.serverUuid]] else []
  }

  function PacketJoins(read: bytes -> Request, r: State, id: ClientId, packet: bytes): seq<ServerConnection> {
    match read(packet)
    case Call(_, p) => JoinOf(r, id, p)
    case Unusable(_) => []
  }

  function FrameJoins(read: bytes -> Request, r: State, id: ClientId, raw: bytes): seq<ServerConnection> {
    var frame := SlipDataProcessor.Parsed(raw);
    if frame.socketAddress == JSON_ADDRESS then PacketJoins(read, r, id, frame.data) else []
  }

  function ItemsJoins(read: bytes -> Request, r: State, id: ClientId, items: seq<bytes>, slip: bool,
                      hangups: seq<seq<ClientId>>): seq<ServerConnection> {
    if items == [] then [] else
      var n := |items| - 1;
      var r1 := HandleItems(read, r, id, items[..n], slip, hangups);
      ItemsJoins(read, r, id, items[..n], slip, hangups)
      + if slip then FrameJoins(read, r1, id, items[n]) else PacketJoins(read, r1, id, items[n])
  }

  function JsonJoins(read: bytes -> Request, r: State, id: ClientId, data: bytes,
                     hangups: seq<seq<ClientId>>): seq<ServerConnection>
    requires id in r.transports
  {
    var in' := JsonStream.Ingest(r.transports[id].buffer, data);
    if id !in r.jsonClients || |in'.buffer| > MAX_BUFFER then []
    else ItemsJoins(read, WithBuffer(r, id, in'.buffer), id, in'.Packets(), false, hangups)
  }

  function SlipJoins(read: bytes -> Request, r: State, id: ClientId, data: bytes,
                     hangups: seq<seq<ClientId>>): seq<ServerConnection>
    requires id in r.transports
  {
    var s := Framing.Assemble(r.transports[id].buffer, data);
    ItemsJoins(read, WithBuffer(r, id, s.buffer), id, s.frames, true, hangups)
  }

  function ChunkJoins(read: bytes -> Request, r: State, id: ClientId, data: bytes,
                      hangups: seq<seq<ClientId>>): seq<ServerConnection> {
    if !Listed(r, id) || r.transports[id].kind == TypeClient then []
    else if r.transports[id].kind == TypeServer && r.transports[id].slip then SlipJoins(read, r, id, data, hangups)
    else JsonJoins(read, r, id, data, hangups)
  }

  function StepJoins(read: bytes -> Request, r: State, e: Event): seq<ServerConnection> {
    match e
    case Data(id, data, hangups) => ChunkJoins(read, r, id, data, hangups)
    case _ => []
  }

  /** The server connections that the accepted client registrations of a run found, each in
      the state in which it was found. */
  function Joins(read: bytes -> Request, es: seq<Event>): seq<ServerConnection> {
    if es == [] then [] else
      Joins(read, es[..|es| - 1]) + StepJoins(read, Run(read, es[..|es| - 1]), es[|es| - 1])
  }

  /** Each registration finds an address within the allocator's reach. */
  ghost predicate Roomy(joins: seq<ServerConnection>) {
    forall i :: 0 <= i < |joins| ==> HasRoom(joins[i].byAddress.Keys, joins[i].counter)
  }

  lemma RoomyParts(a: seq<ServerConnection>, b: seq<ServerConnection>)
    ensures Roomy(a + b) <==> Roomy(a) && Roomy(b)
  {
    var all := a + b;
    assert forall i :: 0 <= i < |a| ==> all[i] == a[i];
    assert forall i :: 0 <= i < |b| ==> all[|a| + i] == b[i];
    if Roomy(all) {
      forall i | 0 <= i < |b| ensures HasRoom(b[i].byAddress.Keys, b[i].counter) {
        assert all[|a| + i] == b[i];
      }
    }
  }

  // ---------------------------------------------------------------- one packet

  /** r' is sound, and as far apart as r if every registration on the way found room. */
  ghost predicate Led(r: State, r': State, joins: seq<ServerConnection>) {
    Sound(r') && (Apart(r) && Roomy(joins) ==> Apart(r'))
  }

  lemma CallRegisterClientKeeps(r: State, id: ClientId, c: Uuid, name: string, u: Uuid)
    requires Sound(r) && u != NULL_UUID && c != NULL_UUID
    ensures Led(r, CallRegisterClient(r, id, c, name, u).0, JoinOf(r, id, RegisterClient(c, name, u)))
  {
    var joins := JoinOf(r, id, RegisterClient(c, name, u));
    if Accepts(r, id, RegisterClient(c, name, u)) {
      AddClientKeepsExactly(r, id, c, name, u);
      assert joins[0] == r.servers[u];
    } else if Listed(r, id) {
      RetouchKeeps(r, id, r.transports[id].(killRequested := true));
    }
  }

  lemma CallRegisterServerKeeps(r: State, id: ClientId, u: Uuid, name: string)
    requires Sound(r)
    ensures Kept(r, CallRegisterServer(r, id, u, name).0)
  {
    if Listed(r, id) {
      if r.transports[id].kind == TypeNone && u !in r.clients && u !in r.servers {
        AddServerKeeps(r, id, u, name);
      } else {
        RetouchKeeps(r, id, r.transports[id].(killRequested := true));
      }
    }
  }

  lemma CallDisconnectClientKeeps(r: State, id: ClientId, a: u16)
    requires Sound(r)
    ensures Kept(r, CallDisconnectClient(r, id, a).0)
  {
    if Listed(r, id) {
      var t := r.transports[id];
      if t.kind != TypeServer || t.uuid !in r.servers {
        RetouchKeeps(r, id, t.(killRequested := true));
      } else if a in r.servers[t.uuid].byAddress {
        KillKeeps(r, ClientTransport(r, r.servers[t.uuid].byAddress[a]));
      }
    }
  }

  lemma InvokeKeeps(r: State, id: ClientId, p: Procedure)
    requires Sound(r)
    ensures Led(r, Invoke(r, id, p).0, JoinOf(r, id, p))
  {
    match p
    case RegisterServer(u, name) => CallRegisterServerKeeps(r, id, u, name);
    case RegisterClient(c, name, u) =>
      if u != NULL_UUID && c != NULL_UUID {
        CallRegisterClientKeeps(r, id, c, name, u);
      }
    case DisconnectClient(a) => CallDisconnectClientKeeps(r, id, a);
    case _ =>
  }

  lemma AfterResponseKeeps(r: State, id: ClientId)
    requires Sound(r)
    ensures Kept(r, AfterResponse(r, id))
  {
    if id in r.transports {
      KillKeeps(r, id);
      RetouchKeeps(r, id, r.transports[id].(slip := true));
    }
  }

  lemma HandlePacketKeeps(read: bytes -> Request, r: State, id: ClientId, packet: bytes)
    requires Sound(r)
    ensures Led(r, HandlePacket(read, r, id, packet), PacketJoins(read, r, id, packet))
  {
    match read(packet)
    case Unusable(n) =>
      SendAnswerKeeps(r, id, ErrorResponse(n));
      KillKeeps(Send(r, id, ErrorResponse(n)), id);
    case Call(n, p) =>
      var (r1, reply) := Invoke(r, id, p);
      InvokeKeeps(r, id, p);
      SendAnswerKeeps(r1, id, Response(n, reply));
      AfterResponseKeeps(Send(r1, id, Response(n, reply)), id);
  }

  /** After a packet the tables are still apart exactly when a registration in it, if there
      was one, found room. */
  lemma PacketKeepsExactly(read: bytes -> Request, r: State, id: ClientId, packet: bytes)
    requires Inv(r)
    ensures Inv(HandlePacket(read, r, id, packet)) <==> Roomy(PacketJoins(read, r, id, packet))
  {
    HandlePacketKeeps(read, r, id, packet);
    var joins := PacketJoins(read, r, id, packet);
    if !Roomy(joins) {
      var p := read(packet).procedure;
      assert joins == [r.servers[p.serverUuid]];
      AddClientKeepsExactly(r, id, p.clientUuid, p.clientName, p.serverUuid);
      var r1 := Invoke(r, id, p).0;
      assert r1 == AddClient(r, id, p.clientUuid, p.clientName, p.serverUuid);
      if AllSettled(HandlePacket(read, r, id, packet)) {
        SettledSame(HandlePacket(read, r, id, packet), r1);
      }
    }
  }

  // ---------------------------------------------------------------- one chunk

  lemma HandleFrameKeeps(read: bytes -> Request, r: State, id: ClientId, raw: bytes)
    requires Sound(r)
    ensures Led(r, HandleFrame(read, r, id, raw), FrameJoins(read, r, id, raw))
  {
    var frame := SlipDataProcessor.Parsed(raw);
    if frame.socketAddress == JSON_ADDRESS {
      HandlePacketKeeps(read, r, id, frame.data);
    } else if id in r.transports && r.transports[id].uuid in r.servers {
      var u := r.transports[id].uuid;
      if frame.socketAddress in r.servers[u].byAddress {
        assert IsIndexed(r, u, frame.socketAddress);
        ForwardPayloadKeeps(r, r.servers[u].byAddress[frame.socketAddress], frame.data);
      }
    }
  }

  /** A disconnect only ever takes addresses away from servers. */
  lemma DisconnectShrinks(r: State, gone: ClientId, u: Uuid)
    requires u in Disconnect(r, gone).servers
    ensures u in r.servers
    ensures Disconnect(r, gone).servers[u].counter == r.servers[u].counter
    ensures Disconnect(r, gone).servers[u].byAddress.Keys <= r.servers[u].byAddress.Keys
  {
    if Listed(r, gone) {
      var t, r1 := r.transports[gone], Unlist(r, gone);
      if t.kind == TypeServer && t.uuid in r.servers {
        assert Disconnect(r, gone).servers == r.servers - {t.uuid};
      } else if t.kind == TypeClient && t.uuid in r.clients {
        assert Disconnect(r, gone) == DropClient(r1, t.uuid);
      }
    }
  }

  lemma DisconnectListed(r: State, gone: ClientId, id: ClientId)
    requires Listed(Disconnect(r, gone), id)
    ensures Listed(r, id) && Disconnect(r, gone).transports[id] == r.transports[id]
  {
    if Listed(r, gone) {
      assert Disconnect(r, gone).transports == Unlist(r, gone).transports;
    }
  }

  lemma {:induction false} DisconnectAllKeeps(r: State, ids: seq<ClientId>)
    requires Sound(r)
    ensures Kept(r, DisconnectAll(r, ids))
  {
    if ids != [] {
      var n := |ids| - 1;
      DisconnectAllKeeps(r, ids[..n]);
      DisconnectKeeps(DisconnectAll(r, ids[..n]), ids[n]);
    }
  }

  /** One item and the disconnects that land while it is handled. */
  lemma HandleItemKeeps(read: bytes -> Request, r: State, id: ClientId, item: bytes, slip: bool, gone: seq<ClientId>)
    requires Sound(r)
    ensures var r1 := if slip then HandleFrame(read, r, id, item) else HandlePacket(read, r, id, item);
            var joins := if slip then FrameJoins(read, r, id, item) else PacketJoins(read, r, id, item);
            Sound(r1) && Led(r, DisconnectAll(r1, gone), joins)
  {
    HandleFrameKeeps(read, r, id, item);
    HandlePacketKeeps(read, r, id, item);
    DisconnectAllKeeps(if slip then HandleFrame(read, r, id, item) else HandlePacket(read, r, id, item), gone);
  }

  lemma {:induction false} HandleItemsKeeps(read: bytes -> Request, r: State, id: ClientId, items: seq<bytes>,
                                            slip: bool, hangups: seq<seq<ClientId>>)
    requires Sound(r)
    ensures Led(r, HandleItems(read, r, id, items, slip, hangups), ItemsJoins(read, r, id, items, slip, hangups))
  {
    if items != [] {
      var n := |items| - 1;
      HandleItemsKeeps(read, r, id, items[..n], slip, hangups);
      var r1 := HandleItems(read, r, id, items[..n], slip, hangups);
      HandleItemKeeps(read, r1, id, items[n], slip, Hangups(hangups, n));
      RoomyParts(ItemsJoins(read, r, id, items[..n], slip, hangups),
                 if slip then FrameJoins(read, r1, id, items[n]) else PacketJoins(read, r1, id, items[n]));
    }
  }

  lemma ReceiveTunnelKeeps(r: State, c: Uuid, data: bytes)
    requires Sound(r)
    ensures Kept(r, ReceiveTunnel(r, c, data))
  {
    if c in r.clients && r.clients[c].server.Some? {
      TunnelChunkKeeps(r, c, r.clients[c].server.value, data);
    }
  }

  lemma ReceiveSlipKeeps(read: bytes -> Request, r: State, id: ClientId, data: bytes, hangups: seq<seq<ClientId>>)
    requires Sound(r) && id in r.transports
    ensures Led(r, ReceiveSlip(read, r, id, data, hangups), SlipJoins(read, r, id, data, hangups))
  {
    var s := Framing.Assemble(r.transports[id].buffer, data);
    RetouchKeeps(r, id, r.transports[id].(buffer := s.buffer));
    HandleItemsKeeps(read, WithBuffer(r, id, s.buffer), id, s.frames, true, hangups);
  }

  lemma ReceiveJsonKeeps(read: bytes -> Request, r: State, id: ClientId, data: bytes, hangups: seq<seq<ClientId>>)
    requires Sound(r) && id in r.transports
    ensures Led(r, ReceiveJson(read, r, id, data, hangups), JsonJoins(read, r, id, data, hangups))
  {
    var s := JsonStream.Ingest(r.transports[id].buffer, data);
    RetouchKeeps(r, id, r.transports[id].(buffer := s.buffer));
    KillKeeps(WithBuffer(r, id, s.buffer), id);
    HandleItemsKeeps(read, WithBuffer(r, id, s.buffer), id, s.Packets(), false, hangups);
  }

  lemma ReceiveKeeps(read: bytes -> Request, r: State, id: ClientId, data: bytes, hangups: seq<seq<ClientId>>)
    requires Sound(r)
    ensures Led(r, Receive(read, r, id, data, hangups), ChunkJoins(read, r, id, data, hangups))
  {
    if Listed(r, id) {
      match r.transports[id].kind
      case TypeClient => ReceiveTunnelKeeps(r, r.transports[id].uuid, data);
      case TypeServer =>
        ReceiveSlipKeeps(read, r, id, data, hangups);
        ReceiveJsonKeeps(read, r, id, data, hangups);
      case TypeNone => ReceiveJsonKeeps(read, r, id, data, hangups);
    }
  }

  // ---------------------------------------------------------------- runs

  lemma StepKeeps(read: bytes -> Request, r: State, e: Event)
    requires Sound(r)
    ensures Led(r, Step(read, r, e), StepJoins(read, r, e))
  {
    match e
    case Connected(id, peer) => ConnectKeeps(r, id, peer);
    case Disconnected(id) => DisconnectKeeps(r, id);
    case Data(id, data, hangups) => ReceiveKeeps(read, r, id, data, hangups);
    case Inactive(id) => KillKeeps(r, id);
    case Tick => PublishKeeps(r);
  }

  /** Every state of every run is sound, crowded or not. */
  lemma {:induction false} RunIsSound(read: bytes -> Request, es: seq<Event>)
    ensures Sound(Run(read, es))
  {
    if es == [] {
      InitInv();
    } else {
      RunIsSound(read, es[..|es| - 1]);
      StepKeeps(read, Run(read, es[..|es| - 1]), es[|es| - 1]);
    }
  }

  /** A run in which every accepted registration found an address to take. */
  ghost predicate Admissible(read: bytes -> Request, es: seq<Event>) {
    Roomy(Joins(read, es))
  }

  lemma AdmissibleButLast(read: bytes -> Request, es: seq<Event>)
    requires es != []
    ensures Admissible(read, es) <==>
              Admissible(read, es[..|es| - 1]) && Roomy(StepJoins(read, Run(read, es[..|es| - 1]), es[|es| - 1]))
  {
    RoomyParts(Joins(read, es[..|es| - 1]), StepJoins(read, Run(read, es[..|es| - 1]), es[|es| - 1]));
  }

  lemma {:induction false} AdmissiblePrefix(read: bytes -> Request, es: seq<Event>, n: nat)
    requires Admissible(read, es) && n <= |es|
    ensures Admissible(read, es[..n])
    decreases |es|
  {
    if n == |es| {
      assert es[..n] == es;
    } else {
      AdmissibleButLast(read, es);
      AdmissiblePrefix(read, es[..|es| - 1], n);
      assert es[..|es| - 1][..n] == es[..n];
    }
  }

  /** Every state of every admissible run satisfies the whole invariant. */
  lemma {:induction false} RunKeeps(read: bytes -> Request, es: seq<Event>)
    requires Admissible(read, es)
    ensures Inv(Run(read, es))
  {
    if es == [] {
      InitInv();
    } else {
      AdmissibleButLast(read, es);
      RunKeeps(read, es[..|es| - 1]);
      StepKeeps(read, Run(read, es[..|es| - 1]), es[|es| - 1]);
    }
  }

  /** Each accepted registration found at most 98 addresses in use on its own server. */
  ghost predicate Uncrowded(read: bytes -> Request, es: seq<Event>) {
    forall i :: 0 <= i < |Joins(read, es)| ==> |Joins(read, es)[i].byAddress| <= 98
  }

  /** 98 clients at each registration are always safe. */
  lemma UncrowdedIsAdmissible(read: bytes -> Request, es: seq<Event>)
    requires Uncrowded(read, es)
    ensures Admissible(read, es)
  {
    var joins := Joins(read, es);
    forall i | 0 <= i < |joins| ensures HasRoom(joins[i].byAddress.Keys, joins[i].counter) {
      assert |joins[i].byAddress.Keys| == |joins[i].byAddress|;
      RoomForNinetyEight(joins[i].byAddress.Keys, joins[i].counter);
    }
  }

  // ---------------------------------------------------------------- consequences

  /** Session discipline and mirror, over whole runs: what a tunnel server has been told is
      disciplined, the sessions open on it are its address table, and each carries every
      chunk its client has handed over. */
  lemma ServersAreToldTheirTables(read: bytes -> Request, es: seq<Event>, u: Uuid)
    requires Admissible(read, es) && u in Run(read, es).servers
    ensures var r := Run(read, es);
            var story := Story(Outbox(r.log, r.servers[u].transport));
            Disciplined(story) && Shows(Track(story), r, u)
  {
    RunKeeps(read, es);
    var r := Run(read, es);
    assert Shows(Seen(r.log, r.servers[u].transport), r, u);
    TrackExactly(Story(Outbox(r.log, r.servers[u].transport)));
  }

  /** Discipline holds for every socket that ever was, also after its server has gone. */
  lemma EverySocketIsDisciplined(read: bytes -> Request, es: seq<Event>, id: ClientId)
    requires Admissible(read, es)
    ensures Disciplined(Story(Outbox(Run(read, es).log, id)))
  {
    RunKeeps(read, es);
    assert Seen(Run(read, es).log, id) != None;
    TrackExactly(Story(Outbox(Run(read, es).log, id)));
  }

  /** No byte of payload is counted twice or not at all. */
  lemma TrafficIsConserved(read: bytes -> Request, es: seq<Event>)
    ensures var r := Run(read, es); PublishedSum(r.log) + r.troughputCounter == Carried(r.log)
  {
    RunIsSound(read, es);
  }

  lemma {:induction false} PoliteAt(log: seq<Entry>, n: nat)
    requires Polite(log) && n < |log|
    ensures NextPolite(log[..n], log[n])
  {
    var m := |log| - 1;
    if n < m {
      PoliteAt(log[..m], n);
      assert log[..m][..n] == log[..n];
    }
  }

  /** Whoever is sent a notification, a tunnelled chunk or a forwarded payload is open at
      that moment; after a disconnect this means the socket was opened again. */
  lemma OnlyOpenSocketsAreToldThings(read: bytes -> Request, es: seq<Event>, n: nat)
    requires n < |Run(read, es).log|
    requires Run(read, es).log[n].Sent? && !Run(read, es).log[n].message.IsAnswer()
    ensures IsOpen(Run(read, es).log[..n], Run(read, es).log[n].to)
  {
    RunIsSound(read, es);
    PoliteAt(Run(read, es).log, n);
  }
}
