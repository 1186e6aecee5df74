/** How proxy and peer come together: what the proxy answers to the peer's two calls is what
    brings the peer to run, and the proxy has the server in its tables by then. */
module Handshake {
  import opened Bytes
  import opened Sessions
  import opened Messages
  import Registry
  import RegistryInvariant
  import RegistryModes
  import RegistryRuns
  import RegistryCalls
  import RegistrySteps
  import PeerLifecycle
  import PeerStream
  import EndToEnd
  import Peers = SocketServer

  const HELLO: Control := Response(0, Description)
  const ACCEPTED: Control := Response(0, ServerRegistration(NoError))

  /** A socket connects and says Hello and RegisterServer, in whatever chunks. */
  function Registering(id: Registry.ClientId, peer: string, hello: seq<bytes>,
                       register: seq<bytes>): seq<Registry.Event> {
    [Registry.Connected(id, peer)] + RegistrySteps.Arriving(id, hello) + RegistrySteps.Arriving(id, register)
  }

  /** The texts of the two calls, as they are read and as they arrive. */
  ghost predicate Calls(read: bytes -> Request, hello: seq<bytes>, register: seq<bytes>, u: Uuid, name: string) {
    && RegistrySteps.Brings(hello, Concat(hello)) && read(Concat(hello)) == Call(0, Hello)
    && RegistrySteps.Brings(register, Concat(register)) && read(Concat(register)) == Call(0, RegisterServer(u, name))
  }

  /** The proxy's part, in any state in which the socket is new and the uuid is free: the
      server is registered and speaks SLIP, and the socket has been sent two plain answers. */
  lemma ProxyRegisters(read: bytes -> Request, r: Registry.State, id: Registry.ClientId, peer: string,
                       hello: seq<bytes>, register: seq<bytes>, u: Uuid, name: string)
    requires RegistryInvariant.Sound(r) && !Registry.Listed(r, id) && !RegistryCalls.Taken(r, u) && u != NULL_UUID
    requires Calls(read, hello, register, u, name)
    ensures var r' := RegistrySteps.Later(read, r, Registering(id, peer, hello, register));
            && r'.log == r.log + [Registry.Opened(id)] + [Registry.Sent(id, Plain(HELLO))]
               + [Registry.Sent(id, Plain(ACCEPTED))]
            && u in r'.servers && r'.servers[u] == Registry.ServerConnection(id, 0, {}, map[])
            && RegistryInvariant.HoldsTransport(r', id, Registry.TypeServer, u) && r'.transports[id].slip
  {
    var r1 := Registry.Connect(r, id, peer);
    RegistrySteps.ConnectedExactly(read, r, id, peer);
    RegistryInvariant.ConnectKeeps(r, id, peer);
    RegistrySteps.PacketInChunks(read, r1, id, hello, Concat(hello));
    var r2 := Registry.HandlePacket(read, r1, id, Concat(hello));
    RegistryCalls.CallIsHandledExactly(read, r1, id, Concat(hello), 0, Hello);
    RegistryRuns.HandlePacketKeeps(read, r1, id, Concat(hello));
    StillNew(read, r1, r2, id, Concat(hello));
    RegistrySteps.PacketInChunks(read, r2, id, register, Concat(register));
    RegistryCalls.CallIsHandledExactly(read, r2, id, Concat(register), 0, RegisterServer(u, name));
    Stages(read, r, id, peer, hello, register);
  }

  /** Hello leaves the socket as it was. */
  lemma StillNew(read: bytes -> Request, r1: Registry.State, r2: Registry.State, id: Registry.ClientId, text: bytes)
    requires RegistryCalls.Unregistered(r1, id) && read(text) == Call(0, Hello)
    requires !r1.transports[id].killRequested && !r1.transports[id].slipAfter
    requires r2 == Registry.HandlePacket(read, r1, id, text)
    ensures r2 == r1.(log := r1.log + [Registry.Letter(r1, id, HELLO)])
  {
  }

  lemma Stages(read: bytes -> Request, r: Registry.State, id: Registry.ClientId, peer: string, hello: seq<bytes>,
               register: seq<bytes>)
    ensures RegistrySteps.Later(read, r, Registering(id, peer, hello, register))
            == RegistrySteps.Later(
                 read, RegistrySteps.Later(read, Registry.Connect(r, id, peer), RegistrySteps.Arriving(id, hello)),
                 RegistrySteps.Arriving(id, register))
  {
    var start: seq<Registry.Event> := [Registry.Connected(id, peer)];
    assert start[..0] == [];
    RegistrySteps.LaterChains(read, r, start, RegistrySteps.Arriving(id, hello));
    RegistrySteps.LaterChains(read, r, start + RegistrySteps.Arriving(id, hello), RegistrySteps.Arriving(id, register));
  }

  /** The bytes of the proxy's two answers, cut as they may be on the way back. */
  ghost predicate Answers(codec: Codec, hello: seq<bytes>, accepted: seq<bytes>) {
    PeerLifecycle.Brings(codec, hello, HELLO) && PeerLifecycle.Brings(codec, accepted, ACCEPTED)
  }

  /** The peer's part, from any state of any peer whose sessions were disciplined so far. */
  lemma PeerStarts(codec: Codec, p: Peers.Peer, emitted: seq<Peers.SocketState>, hello: seq<bytes>,
                   accepted: seq<bytes>)
    requires Peers.Inv(p.node) && Peers.Faithful(p.node) && Track(p.node.signals).Some?
    requires Answers(codec, hello, accepted)
    ensures var q := PeerStream.After(codec.decode, p, PeerLifecycle.Handshake(emitted, hello, accepted));
            EndToEnd.JustRunning(q) && !PeerStream.IsWaiting(q.node)
  {
    PeerLifecycle.HandshakeRunsExactly(codec, p, emitted, HELLO, ACCEPTED, hello, accepted);
    AllEnded(p.node.signals, p.node.sockets);
  }

  lemma AllEnded(signals: seq<SessionEvent>, sockets: map<u16, Uuid>)
    requires Track(signals).Some? && Peers.Mirrors(sockets, Track(signals).value)
    ensures Track(signals + PeerLifecycle.EndOf(sockets)) == Some(map[])
  {
    var board := Track(signals).value;
    if sockets == map[] {
      assert signals + [] == signals && board.Keys == {};
    } else {
      TrackOneMore(signals, End(sockets.Keys));
      assert board - sockets.Keys == map[];
    }
  }

  /** Both parts together, over whole runs: whatever went on before at either end, a peer that
      starts, connects and registers under a free uuid runs, and its socket has switched to
      SLIP with nothing but the two answers behind it. From here on the statements about the
      whole tunnel hold of both. */
  lemma HandshakeConnectsBoth(read: bytes -> Request, es: seq<Registry.Event>, id: Registry.ClientId, peer: string,
                              hello: seq<bytes>, register: seq<bytes>, u: Uuid, name: string,
                              codec: Codec, before: seq<Peers.Event>, emitted: seq<Peers.SocketState>,
                              helloAnswer: seq<bytes>, accepted: seq<bytes>)
    requires !Registry.Listed(Registry.Run(read, es), id) && !RegistryCalls.Taken(Registry.Run(read, es), u)
    requires u != NULL_UUID
    requires Calls(read, hello, register, u, name) && Answers(codec, helloAnswer, accepted)
    requires Track(Peers.Run(codec.decode, before).node.signals).Some?
    ensures var r := Registry.Run(read, es + Registering(id, peer, hello, register));
            var q := PeerStream.After(codec.decode, Peers.Run(codec.decode, before),
                                      PeerLifecycle.Handshake(emitted, helloAnswer, accepted));
            && u in r.servers && r.servers[u].transport == id
            && RegistryInvariant.Outbox(r.log, id) == [Plain(HELLO), Plain(ACCEPTED)]
            && RegistryModes.SwitchesToSlipAt(RegistryInvariant.Outbox(r.log, id), 2)
            && Concat(helloAnswer) == MessageWire(codec, Plain(HELLO))
               && Concat(accepted) == MessageWire(codec, Plain(ACCEPTED))
            && EndToEnd.JustRunning(q) && !PeerStream.IsWaiting(q.node)
  {
    RegistryRuns.RunIsSound(read, es);
    RegistrySteps.LaterRuns(read, es, Registering(id, peer, hello, register));
    ProxyRegisters(read, Registry.Run(read, es), id, peer, hello, register, u, name);
    TwoAnswers(Registry.Run(read, es).log, id);
    Peers.RunKeeps(codec.decode, before);
    PeerStarts(codec, Peers.Run(codec.decode, before), emitted, helloAnswer, accepted);
  }

  lemma TwoAnswers(log: seq<Registry.Entry>, id: Registry.ClientId)
    ensures var box := RegistryInvariant.Outbox(log + [Registry.Opened(id)] + [Registry.Sent(id, Plain(HELLO))]
                                                + [Registry.Sent(id, Plain(ACCEPTED))], id);
            box == [Plain(HELLO), Plain(ACCEPTED)] && RegistryModes.SwitchesToSlipAt(box, 2)
  {
    var log1 := log + [Registry.Opened(id)];
    var log2 := log1 + [Registry.Sent(id, Plain(HELLO))];
    RegistryInvariant.OutboxOneMore(log, Registry.Opened(id));
    RegistryInvariant.OutboxOneMore(log1, Registry.Sent(id, Plain(HELLO)));
    RegistryInvariant.OutboxOneMore(log2, Registry.Sent(id, Plain(ACCEPTED)));
    var box: seq<Message> := [Plain(HELLO), Plain(ACCEPTED)];
    assert box[..2] == box;
  }
}
