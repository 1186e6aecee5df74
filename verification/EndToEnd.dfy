/** Both ends of the tunnel together: what the proxy writes on a server's socket, cut into
    whatever chunks the network likes, is what the peer makes of it. */
module EndToEnd {
  import opened Bytes
  import opened Sessions
  import opened Messages
  import opened PeerStream
  import Registry
  import RegistryInvariant
  import RegistryRuns
  import RegistryModes
  import RegistryMoments
  import RegistryNumbers
  import RegistryRouting
  import RegistrySessions
  import RegistryWrites
  import Peers = SocketServer

  lemma {:induction false} AnswersTellNothing(box: seq<Message>)
    requires RegistryModes.AllPlain(box)
    ensures Story(box) == []
  {
    if box != [] {
      AnswersTellNothing(box[..|box| - 1]);
    }
  }

  lemma NoTunnelOnZero(log: seq<Registry.Entry>, id: Registry.ClientId)
    requires RegistryInvariant.Addressed(log)
    ensures forall m :: m in RegistryInvariant.Outbox(log, id) && m.Tunnel? ==> m.address != 0
  {
    forall m | m in RegistryInvariant.Outbox(log, id) && m.Tunnel? ensures m.address != 0 {
      var n := RegistryNumbers.OutboxWasSent(log, id, m);
      assert RegistryInvariant.IsAddressed(log[n]);
    }
  }

  lemma RunIsAddressed(read: bytes -> Request, es: seq<Registry.Event>)
    requires RegistryRuns.Admissible(read, es)
    ensures RegistryInvariant.Addressed(Registry.Run(read, es).log)
  {
    RegistryRuns.RunKeeps(read, es);
  }

  /** The messages of a server's socket after its switch to SLIP at k, and their story. */
  lemma FramedPart(box: seq<Message>, k: nat)
    requires RegistryModes.SwitchesToSlipAt(box, k)
    requires forall m :: m in box && m.Tunnel? ==> m.address != 0
    ensures AllFramed(box[k..]) && Story(box[k..]) == Story(box)
  {
    forall m | m in box[k..] ensures IsFramed(m) {
      var i :| k <= i < |box| && box[i] == m;
      assert m in box;
    }
    AnswersTellNothing(box[..k]);
    assert box == box[..k] + box[k..];
    StoryAppends(box[..k], box[k..]);
  }

  /** A tunnel server that has just started running: every session it was ever told about
      has ended. */
  ghost predicate JustRunning(p: Peers.Peer) {
    Attentive(p.node) && p.buffer == [] && Track(p.node.signals) == Some(map[])
  }

  /** The last plain message on a server's socket, arriving in a chunk of its own at a peer
      that waits for it, is what starts the peer. */
  lemma AcceptanceStartsRunning(codec: Codec, p: Peers.Peer, m: Message)
    requires Peers.Inv(p.node) && Peers.Faithful(p.node) && p.node.state == Peers.StateRegister
    requires p.node.client == Some(Peers.JsonClient([], Some(Peers.PendingRegister)))
    requires Track(p.node.signals) == Some(map[])
    requires RegistryModes.AcceptsServer(m) && m.control.id == 0 && Prints(codec, m.control)
    ensures JustRunning(Peers.OnDataAvailable(codec.decode, p, MessageWire(codec, m)))
  {
    Peers.DataKeeps(codec.decode, p, codec.encode(m.control));
    ControlIsOnePacket(codec, p.node.(keepAliveArmed := true), m.control);
  }

  /** A peer that has just started running, the events it sees, and part of the wire of some
      messages among them. */
  ghost predicate Listens(codec: Codec, p: Peers.Peer, events: seq<Peers.Event>, box: seq<Message>) {
    JustRunning(p) && Printable(codec, box) && AllMild(events) && Received(events) <= WireOf(codec, box)
  }

  /** ... and all of it. */
  ghost predicate ListensToTheEnd(codec: Codec, p: Peers.Peer, events: seq<Peers.Event>, box: seq<Message>) {
    Listens(codec, p, events, box) && Received(events) == WireOf(codec, box)
  }

  /** Every session socket id was ever told about, ended or not, has been heard, and holds
      exactly what its client handed to the proxy while it was open. */
  ghost predicate HasHeardEverySession(read: bytes -> Request, es: seq<Registry.Event>, id: Registry.ClientId,
                                       before: seq<SessionEvent>, heard: seq<SessionEvent>) {
    var story := RegistryWrites.StoryOf(Registry.Run(read, es), id);
    && heard == before + story
    && forall i :: 0 <= i < |story| && story[i].Begin? ==>
         heard[|before| + i] == story[i] && SessionChunks(heard, |before| + i)
             == RegistrySessions.Spoken(read, es, id, i)
  }

  lemma SessionsAreHeard(read: bytes -> Request, es: seq<Registry.Event>, id: Registry.ClientId,
                         before: seq<SessionEvent>)
    requires RegistryRuns.Admissible(read, es)
    ensures HasHeardEverySession(read, es, id, before, before + RegistryWrites.StoryOf(Registry.Run(read, es), id))
  {
    var story := RegistryWrites.StoryOf(Registry.Run(read, es), id);
    forall i | 0 <= i < |story| && story[i].Begin?
      ensures (before + story)[|before| + i] == story[i]
      ensures SessionChunks(before + story, |before| + i) == RegistrySessions.Spoken(read, es, id, i)
    {
      SessionShifts(before, story, i);
      RegistrySessions.EverySessionIsWhatWasSpoken(read, es, id, i);
    }
  }

  /** Any socket that has switched to SLIP, whether its server is still there or not: its
      peer hears every session, if and only if no notification meets a request under its id. */
  lemma PeerHearsEverySession(read: bytes -> Request, es: seq<Registry.Event>, id: Registry.ClientId, k: nat,
                              codec: Codec, p: Peers.Peer, events: seq<Peers.Event>)
    requires RegistryRuns.Admissible(read, es)
    requires RegistryModes.SwitchesToSlipAt(RegistryInvariant.Outbox(Registry.Run(read, es).log, id), k)
    requires ListensToTheEnd(codec, p, events, RegistryInvariant.Outbox(Registry.Run(read, es).log, id)[k..])
    ensures var q, box := After(codec.decode, p, events), RegistryInvariant.Outbox(Registry.Run(read, es).log, id)[k..];
            var unmet := Unmet(codec, IsWaiting(p.node), box, events);
            && q.buffer == [] && (HasHeardEverySession(read, es, id, p.node.signals, q.node.signals) <==> unmet)
            && (unmet ==>
                  && Track(q.node.signals) == RegistryInvariant.Seen(Registry.Run(read, es).log, id) != None
                  && Peers.Mirrors(q.node.sockets, Track(q.node.signals).value))
  {
    var box := RegistryInvariant.Outbox(Registry.Run(read, es).log, id);
    FramesToTell(read, es, id, k, p.node.signals);
    HearsAllOfIt(codec, p, box[k..], events);
    SessionsAreHeard(read, es, id, p.node.signals);
    TrackResumes(p.node.signals, Story(box));
  }

  /** What is written to a socket after its switch, and its story. */
  lemma FramesToTell(read: bytes -> Request, es: seq<Registry.Event>, id: Registry.ClientId, k: nat,
                     before: seq<SessionEvent>)
    requires RegistryRuns.Admissible(read, es) && Track(before) == Some(map[])
    requires RegistryModes.SwitchesToSlipAt(RegistryInvariant.Outbox(Registry.Run(read, es).log, id), k)
    ensures var box := RegistryInvariant.Outbox(Registry.Run(read, es).log, id);
            && AllFramed(box[k..]) && Story(box[k..]) == Story(box)
            && Track(Story(box)).Some? && Track(before + Story(box)) == Track(Story(box))
  {
    var box := RegistryInvariant.Outbox(Registry.Run(read, es).log, id);
    RunIsAddressed(read, es);
    NoTunnelOnZero(Registry.Run(read, es).log, id);
    FramedPart(box, k);
    RegistryRuns.EverySocketIsDisciplined(read, es, id);
    TrackExactly(Story(box));
    TrackResumes(before, Story(box));
  }

  /** All of the wire is all of the story. */
  lemma HearsAllOfIt(codec: Codec, p: Peers.Peer, ms: seq<Message>, events: seq<Peers.Event>)
    requires ListensToTheEnd(codec, p, events, ms) && AllFramed(ms) && Track(p.node.signals + Story(ms)).Some?
    ensures var q, unmet := After(codec.decode, p, events), Unmet(codec, IsWaiting(p.node), ms, events);
            && q.buffer == [] && (q.node.signals == p.node.signals + Story(ms) <==> unmet)
            && (unmet ==> Peers.Mirrors(q.node.sockets, Track(q.node.signals).value))
  {
    PeerMirrorsEveryPrefix(codec, p, ms, events);
    AllArrives(codec, ms, Received(events));
    ArrivedOnce(codec, ms, Received(events), Whole(codec, ms, Received(events)), |ms|);
  }

  lemma AllArrives(codec: Codec, ms: seq<Message>, stream: bytes)
    requires stream == WireOf(codec, ms)
    ensures ms[..|ms|] == ms && Arrived(codec, ms, stream, |ms|) && stream[|WireOf(codec, ms)|..] == []
  {
    assert ms[..|ms|] == ms;
  }

  /** The whole tunnel. In any run of the proxy in which registrations find room, take a
      server whose socket has switched to SLIP, and a peer that has started running on the
      other end. Whatever the chunks in which the framed bytes arrive, and whatever timers
      fire and disconnects are requested between them: once all have arrived every session
      there ever was has brought exactly the chunks its client handed to the proxy in it, in
      order, if and only if no notification met a request that waited under its id. Then the
      peer's sockets are the server's address table, and the sessions of the clients attached
      now hold all that these have handed over. */
  lemma TunnelIsFaithful(read: bytes -> Request, es: seq<Registry.Event>, u: Uuid, k: nat,
                         codec: Codec, p: Peers.Peer, events: seq<Peers.Event>)
    requires RegistryRuns.Admissible(read, es) && u in Registry.Run(read, es).servers
    requires RegistryModes.SwitchesToSlipAt(ServerOutbox(read, es, u), k)
    requires ListensToTheEnd(codec, p, events, ServerOutbox(read, es, u)[k..])
    ensures var r, q := Registry.Run(read, es), After(codec.decode, p, events);
            var unmet := Unmet(codec, IsWaiting(p.node), ServerOutbox(read, es, u)[k..], events);
            && q.buffer == []
            && (HasHeardEverySession(read, es, r.servers[u].transport, p.node.signals, q.node.signals) <==> unmet)
            && (unmet ==> MirrorsServer(read, es, u, q.node))
  {
    var q := After(codec.decode, p, events).node;
    PeerHearsEverySession(read, es, Registry.Run(read, es).servers[u].transport, k, codec, p, events);
    if Unmet(codec, IsWaiting(p.node), ServerOutbox(read, es, u)[k..], events) {
      MirrorIsTable(read, es, u, q.sockets);
      forall c | c in Registry.Run(read, es).clients && Registry.Run(read, es).clients[c].server == Some(u)
        ensures SessionIsWhole(Track(q.signals).value, read, es, c)
      {
        RegistryRouting.SessionsCarryWhatWasHanded(read, es, c);
      }
    }
  }

  /** The peer's sockets are the server's table, and each holds all its client handed over. */
  ghost predicate MirrorsServer(read: bytes -> Request, es: seq<Registry.Event>, u: Uuid, q: Peers.Node)
    requires u in Registry.Run(read, es).servers
  {
    var r := Registry.Run(read, es);
    && q.sockets == r.servers[u].byAddress
    && Track(q.signals).Some?
    && forall c :: c in r.clients && r.clients[c].server == Some(u) ==>
         SessionIsWhole(Track(q.signals).value, read, es, c)
  }

  /** The peer at any moment: whatever part of the bytes has arrived, the peer is where the
      proxy once was. There was a moment of the run at which the server's address table was
      the peer's sockets, and the chunks its clients had handed over were what the peer has
      heard in the sessions open on them. */
  lemma PeerIsWhereTheProxyWas(read: bytes -> Request, es: seq<Registry.Event>, u: Uuid, k: nat,
                               codec: Codec, p: Peers.Peer, events: seq<Peers.Event>) returns (x: Registry.State)
    requires RegistryRuns.Admissible(read, es) && u in Registry.Run(read, es).servers
    requires RegistryModes.SwitchesToSlipAt(ServerOutbox(read, es, u), k)
    requires Listens(codec, p, events, ServerOutbox(read, es, u)[k..])
    requires Unmet(codec, IsWaiting(p.node), ServerOutbox(read, es, u)[k..], events)
    ensures RegistryMoments.IsMoment(read, es, x) && u in x.servers
    ensures var q := After(codec.decode, p, events).node;
            && q.signals == p.node.signals + RegistryWrites.StoryOf(x, Registry.Run(read, es).servers[u].transport)
            && x.servers[u].transport == Registry.Run(read, es).servers[u].transport
            && q.sockets == x.servers[u].byAddress && RegistryInvariant.Shows(Track(q.signals), x, u)
  {
    var box := ServerOutbox(read, es, u);
    var id := Registry.Run(read, es).servers[u].transport;
    FramesToTell(read, es, id, k, p.node.signals);
    var told := HearsPartOfIt(codec, p, box[k..], events);
    x := RegistryMoments.TableAtThatMoment(read, es, u, |told|);
    TableIs(After(codec.decode, p, events).node.sockets, Track(told).value, x, u);
  }

  /** Part of the wire is the beginning of the story. */
  lemma HearsPartOfIt(codec: Codec, p: Peers.Peer, ms: seq<Message>,
                      events: seq<Peers.Event>) returns (told: seq<SessionEvent>)
    requires Listens(codec, p, events, ms) && AllFramed(ms) && Track(p.node.signals + Story(ms)).Some?
    requires Unmet(codec, IsWaiting(p.node), ms, events)
    ensures told <= Story(ms) && told == Story(ms)[..|told|]
    ensures var q := After(codec.decode, p, events).node;
            && q.signals == p.node.signals + told
            && Track(q.signals) == Track(told) != None && Peers.Mirrors(q.sockets, Track(told).value)
  {
    PeerMirrorsEveryPrefix(codec, p, ms, events);
    var j := Whole(codec, ms, Received(events));
    told := Story(ms[..j]);
    assert ms == ms[..j] + ms[j..];
    StoryAppends(ms[..j], ms[j..]);
    TrackResumes(p.node.signals, told);
  }

  /** Two things that mirror a board are the same. */
  lemma TableIs(sockets: map<u16, Uuid>, board: Board, r: Registry.State, u: Uuid)
    requires Peers.Mirrors(sockets, board) && u in r.servers && RegistryInvariant.Shows(Some(board), r, u)
    ensures sockets == r.servers[u].byAddress
  {
    forall a | a in sockets ensures sockets[a] == r.servers[u].byAddress[a] {
      assert board[a] == RegistryInvariant.SessionOn(r, u, a);
    }
  }

  /** A board has client c, on its address and with all it handed to the proxy. */
  ghost predicate SessionIsWhole(board: Board, read: bytes -> Request, es: seq<Registry.Event>, c: Uuid)
    requires c in Registry.Run(read, es).clients
  {
    var client := Registry.Run(read, es).clients[c];
    && client.address in board
    && board[client.address] == Session(c, RegistryRouting.Handed(read, es, client.transport))
  }

  lemma MirrorIsTable(read: bytes -> Request, es: seq<Registry.Event>, u: Uuid, sockets: map<u16, Uuid>)
    requires RegistryRuns.Admissible(read, es) && u in Registry.Run(read, es).servers
    requires Track(Story(ServerOutbox(read, es, u))).Some?
    requires Peers.Mirrors(sockets, Track(Story(ServerOutbox(read, es, u))).value)
    ensures sockets == Registry.Run(read, es).servers[u].byAddress
  {
    RegistryRuns.ServersAreToldTheirTables(read, es, u);
  }

  /** Everything sent to the socket of server u since it opened. */
  function ServerOutbox(read: bytes -> Request, es: seq<Registry.Event>, u: Uuid): seq<Message>
    requires u in Registry.Run(read, es).servers
  {
    RegistryInvariant.Outbox(Registry.Run(read, es).log, Registry.Run(read, es).servers[u].transport)
  }

  /** No notification meets a request, whatever the peer sends and when, as soon as the
      proxy's first notification ever went to some other socket. */
  lemma UnmetButForTheFirst(read: bytes -> Request, es: seq<Registry.Event>, u: Uuid, k: nat, first: nat,
                            codec: Codec, waiting: bool, events: seq<Peers.Event>)
    requires u in Registry.Run(read, es).servers && k <= |ServerOutbox(read, es, u)|
    requires first < |Registry.Run(read, es).log| && RegistryNumbers.IsNotification(Registry.Run(read, es).log[first])
    requires Registry.Run(read, es).log[first].message.control.id == 0
    requires Registry.Run(read, es).log[first].to != Registry.Run(read, es).servers[u].transport
    ensures Unmet(codec, waiting, ServerOutbox(read, es, u)[k..], events)
  {
    var box := ServerOutbox(read, es, u);
    forall m | m in box[k..] && m.Framed? && !m.IsAnswer() ensures m.control.id != 0 {
      assert m in box;
      RegistryNumbers.NoneElsewhereIsZero(read, es, first, Registry.Run(read, es).servers[u].transport, m);
    }
    ApartIsUnmet(codec, waiting, box[k..], events);
  }

  /** Every server's socket that was not killed before its registration was answered does
      switch to SLIP, once. */
  lemma ServersSwitchToSlip(read: bytes -> Request, es: seq<Registry.Event>, u: Uuid)
    requires u in Registry.Run(read, es).servers
    requires !RegistryInvariant.IsKilled(Registry.Run(read, es).log, Registry.Run(read, es).servers[u].transport)
    ensures RegistryModes.SlipShape(ServerOutbox(read, es, u))
  {
    RegistryRuns.RunIsSound(read, es);
    RegistryModes.RunFits(read, es);
    var r := Registry.Run(read, es);
    var id := r.servers[u].transport;
    assert RegistryInvariant.HoldsTransport(r, id, Registry.TypeServer, u);
    assert RegistryModes.ModeAt(r, id);
  }
}
