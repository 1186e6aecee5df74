/** Each socket switches mode at most once: a server's socket from plain JSON to SLIP frames,
    right after the response that accepted its registration, and a client's socket from
    JSON to the raw tunnel, after the response that accepted its registration. */
module RegistryModes {
  import opened Bytes
  import opened Messages
  import opened AddressAllocator
  import opened Registry
  import opened RegistryInvariant
  import opened RegistryRuns
  import JsonStream
  import Framing
  import SlipDataProcessor

  /** Unframed answers and nothing else. */
  predicate AllPlain(box: seq<Message>) {
    forall i :: 0 <= i < |box| ==> box[i].Plain? && box[i].IsAnswer()
  }

  predicate AcceptsServer(m: Message) {
    m.Plain? && m.control.Response? && m.control.reply == ServerRegistration(NoError)
  }

  predicate AcceptsClient(m: Message) {
    m.Plain? && m.control.Response? && m.control.reply == ClientRegistration(NoError)
  }

  /** Plain up to k, only frames from there on, and the last plain message accepts the
      server's registration. */
  predicate SwitchesToSlipAt(box: seq<Message>, k: nat) {
    && 0 < k <= |box| && AllPlain(box[..k]) && AcceptsServer(box[k - 1])
    && forall i :: k <= i < |box| ==> box[i].Framed? || box[i].Tunnel?
  }

  /** JSON up to k, raw payloads from there on, and message j < k accepts the client's
      registration. */
  predicate SwitchesToRawAt(box: seq<Message>, j: nat, k: nat) {
    && j < k <= |box| && AllPlain(box[..k]) && AcceptsClient(box[j])
    && forall i :: k <= i < |box| ==> box[i].Forward?
  }

  ghost predicate SlipShape(box: seq<Message>) {
    exists k: nat :: SwitchesToSlipAt(box, k)
  }

  ghost predicate RawShape(box: seq<Message>) {
    exists j: nat, k: nat :: SwitchesToRawAt(box, j, k)
  }

  /** How the flags of a socket and what was sent on it fit together. A server's socket has
      SLIP on, or a kill was requested, and issued, before it could be switched on. */
  ghost predicate ModeFits(t: Transport, box: seq<Message>, killed: bool) {
    && (t.killRequested ==> killed)
    && match t.kind
       case TypeNone => !t.slip && !t.slipAfter && AllPlain(box)
       case TypeServer => if t.slip then SlipShape(box) else t.killRequested
       case TypeClient => !t.slip && !t.slipAfter && RawShape(box)
  }

  ghost predicate ModeAt(r: State, id: ClientId) {
    Listed(r, id) ==> ModeFits(r.transports[id], Outbox(r.log, id), IsKilled(r.log, id))
  }

  ghost predicate Modes(r: State) {
    forall id :: ModeAt(r, id)
  }

  /** While JSON is still being handled on a socket no raw payload has been sent on it. */
  ghost predicate Talking(r: State, id: ClientId) {
    Listed(r, id) && r.transports[id].kind == TypeClient ==> AllPlain(Outbox(r.log, id))
  }

  /** The frames of one chunk come from a server's socket. */
  ghost predicate FromServer(r: State, id: ClientId) {
    Listed(r, id) ==> r.transports[id].kind == TypeServer
  }

  // ---------------------------------------------------------------- one message more

  lemma FramesFit(box: seq<Message>, m: Message)
    requires SlipShape(box) && (m.Framed? || m.Tunnel?)
    ensures SlipShape(box + [m])
  {
    var k: nat :| SwitchesToSlipAt(box, k);
    assert (box + [m])[..k] == box[..k];
    assert SwitchesToSlipAt(box + [m], k);
  }

  lemma RawFits(box: seq<Message>, m: Message)
    requires RawShape(box) && m.Forward?
    ensures RawShape(box + [m])
  {
    var j: nat, k: nat :| SwitchesToRawAt(box, j, k);
    assert (box + [m])[..k] == box[..k];
    assert SwitchesToRawAt(box + [m], j, k);
  }

  lemma PlainRawFits(box: seq<Message>, m: Message)
    requires AllPlain(box) && m.Plain? && m.IsAnswer() && (RawShape(box) || AcceptsClient(m))
    ensures RawShape(box + [m])
  {
    var n := |box| + 1;
    assert (box + [m])[..n] == box + [m];
    if AcceptsClient(m) {
      assert SwitchesToRawAt(box + [m], |box|, n);
    } else {
      var j: nat, k: nat :| SwitchesToRawAt(box, j, k);
      assert SwitchesToRawAt(box + [m], j, n);
    }
  }

  /** How a procedure call may change the caller's own socket. */
  ghost predicate Progress(t: Transport, t': Transport, reply: Reply) {
    || t' == t
    || t' == t.(killRequested := true)
    || (t.kind == TypeNone && t'.kind == TypeServer && t'.slipAfter && t'.slip == t.slip
        && t'.killRequested == t.killRequested && reply == ServerRegistration(NoError))
    || (t.kind == TypeNone && t'.kind == TypeClient && t'.slipAfter == t.slipAfter && t'.slip == t.slip
        && t'.killRequested == t.killRequested && reply == ClientRegistration(NoError))
  }

  function Answer(t: Transport, c: Control): Message {
    if t.slip then Framed(c) else Plain(c)
  }

  function Answered(t: Transport): Transport {
    if !t.killRequested && t.slipAfter then t.(slip := true) else t
  }

  /** The response to a call and what comes after it. */
  lemma ResponseFits(t: Transport, t': Transport, box: seq<Message>, killed: bool, n: int, reply: Reply)
    requires ModeFits(t, box, killed) && (t.kind == TypeClient ==> AllPlain(box))
    requires Progress(t, t', reply)
    ensures var box' := box + [Answer(t', Response(n, reply))];
            ModeFits(Answered(t'), box', killed || t'.killRequested)
            && (t'.kind == TypeClient ==> AllPlain(box'))
  {
    var m := Answer(t', Response(n, reply));
    if t.kind == TypeNone && t'.kind == TypeServer {
      assert (box + [m])[..|box| + 1] == box + [m];
      assert SwitchesToSlipAt(box + [m], |box| + 1);
    } else if t'.kind == TypeServer && t.slip {
      FramesFit(box, m);
    } else if t'.kind == TypeClient {
      PlainRawFits(box, m);
    }
  }

  lemma ErrorFits(t: Transport, box: seq<Message>, killed: bool, c: Control)
    requires ModeFits(t, box, killed) && (t.kind == TypeClient ==> AllPlain(box)) && c.IsAnswer()
    ensures ModeFits(t, box + [Answer(t, c)], true) && (t.kind == TypeClient ==> AllPlain(box + [Answer(t, c)]))
  {
    if t.kind == TypeServer && t.slip {
      FramesFit(box, Answer(t, c));
    } else if t.kind == TypeClient {
      PlainRawFits(box, Answer(t, c));
    }
  }

  // ---------------------------------------------------------------- one log entry more

  /** A log entry whose only addressee, if it has one, is given something that fits. */
  lemma EntryFits(r: State, r': State, e: Entry, but: ClientId)
    requires forall i :: i != but ==> ModeAt(r, i)
    requires r'.log == r.log + [e] && !e.Opened?
    requires forall i :: i != but && Listed(r', i) ==> Listed(r, i) && r'.transports[i] == r.transports[i]
    requires e.Sent? && e.to != but && Listed(r', e.to) && Listed(r, e.to) ==>
               ModeFits(r.transports[e.to], Outbox(r.log, e.to) + [e.message], IsKilled(r.log, e.to))
    ensures forall i :: i != but ==> ModeAt(r', i)
  {
    OutboxOneMore(r.log, e);
    KilledOneMore(r.log, e);
    forall i | i != but ensures ModeAt(r', i) {
      assert ModeAt(r, i);
    }
  }

  /** A notification always fits the socket of a server. */
  lemma NotificationFits(r: State, u: Uuid, c: Control)
    requires Tables(r) && u in r.servers && ModeAt(r, r.servers[u].transport)
    ensures var id := r.servers[u].transport;
            Listed(r, id) && r.transports[id].kind == TypeServer
            && ModeFits(r.transports[id], Outbox(r.log, id) + [Answer(r.transports[id], c)], IsKilled(r.log, id))
  {
    var id := r.servers[u].transport;
    assert HoldsTransport(r, id, TypeServer, u);
    if r.transports[id].slip {
      FramesFit(Outbox(r.log, id), Answer(r.transports[id], c));
    }
  }

  // ---------------------------------------------------------------- one packet

  /** What a procedure call leaves of the modes: every other socket fits, and the caller's
      own has made progress and been sent nothing. */
  ghost predicate Called(r: State, r': State, id: ClientId, reply: Reply) {
    && (forall i :: i != id ==> ModeAt(r', i))
    && Outbox(r'.log, id) == Outbox(r.log, id)
    && (IsKilled(r.log, id) ==> IsKilled(r'.log, id))
    && (Listed(r', id) <==> Listed(r, id))
    && (Listed(r, id) ==> Progress(r.transports[id], r'.transports[id], reply))
  }

  lemma CalledWithEntry(r: State, r': State, id: ClientId, reply: Reply, e: Entry)
    requires Modes(r) && r'.log == r.log + [e] && !e.Opened? && (e.Sent? ==> e.to != id)
    requires forall i :: i != id && Listed(r', i) ==> Listed(r, i) && r'.transports[i] == r.transports[i]
    requires e.Sent? && Listed(r', e.to) && Listed(r, e.to) ==>
               ModeFits(r.transports[e.to], Outbox(r.log, e.to) + [e.message], IsKilled(r.log, e.to))
    requires Listed(r', id) <==> Listed(r, id)
    requires Listed(r, id) ==> Progress(r.transports[id], r'.transports[id], reply)
    ensures Called(r, r', id, reply)
  {
    OutboxOneMore(r.log, e);
    KilledOneMore(r.log, e);
    EntryFits(r, r', e, id);
  }

  lemma CalledQuietly(r: State, r': State, id: ClientId, reply: Reply)
    requires Modes(r) && r'.log == r.log
    requires forall i :: i != id && Listed(r', i) ==> Listed(r, i) && r'.transports[i] == r.transports[i]
    requires Listed(r', id) <==> Listed(r, id)
    requires Listed(r, id) ==> Progress(r.transports[id], r'.transports[id], reply)
    ensures Called(r, r', id, reply)
  {
    forall i | i != id ensures ModeAt(r', i) {
      assert ModeAt(r, i);
    }
  }

  lemma DisconnectCallFits(r: State, id: ClientId, a: u16)
    requires Sound(r) && Modes(r)
    ensures var (r', e) := CallDisconnectClient(r, id, a); Called(r, r', id, Disconnection(e))
  {
    var (r', e) := CallDisconnectClient(r, id, a);
    if e == NoError {
      CalledWithEntry(r, r', id, Disconnection(e),
                      Killed({ClientTransport(r, r.servers[r.transports[id].uuid].byAddress[a])}));
    } else {
      CalledQuietly(r, r', id, Disconnection(e));
    }
  }

  lemma RegisterServerFits(r: State, id: ClientId, u: Uuid, name: string)
    requires Modes(r)
    ensures var (r', e) := CallRegisterServer(r, id, u, name); Called(r, r', id, ServerRegistration(e))
  {
    var (r', e) := CallRegisterServer(r, id, u, name);
    CalledQuietly(r, r', id, ServerRegistration(e));
  }

  lemma RegisterClientFits(r: State, id: ClientId, c: Uuid, name: string, u: Uuid)
    requires Sound(r) && Modes(r)
    ensures var (r', e) := CallRegisterClient(r, id, c, name, u); Called(r, r', id, ClientRegistration(e))
  {
    var (r', e) := CallRegisterClient(r, id, c, name, u);
    if e == NoError {
      JoinFits(r, id, c, name, u);
    } else {
      CalledQuietly(r, r', id, ClientRegistration(e));
    }
  }

  lemma JoinFits(r: State, id: ClientId, c: Uuid, name: string, u: Uuid)
    requires Sound(r) && Modes(r) && Listed(r, id) && r.transports[id].kind == TypeNone && u in r.servers
    ensures Called(r, AddClient(r, id, c, name, u), id, ClientRegistration(NoError))
  {
    var s, r' := r.servers[u], AddClient(r, id, c, name, u);
    var n := ClientConnected(r.notificationId, name, c, r.transports[id].peer,
                             NextAddress(s.byAddress.Keys, s.counter));
    assert ModeAt(r, s.transport);
    NotificationFits(r, u, n);
    CalledWithEntry(r, r', id, ClientRegistration(NoError), Sent(s.transport, Answer(r.transports[s.transport], n)));
  }

  lemma InvokeFits(r: State, id: ClientId, p: Procedure)
    requires Sound(r) && Modes(r)
    ensures var (r', reply) := Invoke(r, id, p); Called(r, r', id, reply)
  {
    match p
    case RegisterServer(u, name) =>
      if u == NULL_UUID {
        CalledQuietly(r, r, id, ServerRegistration(InvalidUuid));
      } else {
        RegisterServerFits(r, id, u, name);
      }
    case RegisterClient(c, name, u) =>
      if c == NULL_UUID || u == NULL_UUID {
        CalledQuietly(r, r, id, ClientRegistration(InvalidUuid));
      } else {
        RegisterClientFits(r, id, c, name, u);
      }
    case DisconnectClient(a) => DisconnectCallFits(r, id, a);
    case _ => CalledQuietly(r, r, id, Invoke(r, id, p).1);
  }

  lemma HandleCallFits(r: State, id: ClientId, n: int, p: Procedure)
    requires Sound(r) && Modes(r) && Talking(r, id)
    ensures var (r1, reply) := Invoke(r, id, p);
            var r' := AfterResponse(Send(r1, id, Response(n, reply)), id);
            Modes(r') && Talking(r', id) && (FromServer(r, id) ==> FromServer(r', id))
  {
    var (r1, reply) := Invoke(r, id, p);
    InvokeFits(r, id, p);
    var e := Letter(r1, id, Response(n, reply));
    var r2 := Send(r1, id, Response(n, reply));
    OutboxOneMore(r1.log, e);
    KilledOneMore(r1.log, e);
    EntryFits(r1, r2, e, id);
    var r' := AfterResponse(r2, id);
    OutboxOneMore(r2.log, Killed({id}));
    KilledOneMore(r2.log, Killed({id}));
    if Listed(r, id) {
      assert ModeAt(r, id);
      ResponseFits(r.transports[id], r1.transports[id], Outbox(r.log, id), IsKilled(r.log, id), n, reply);
    }
    AfterResponseFits(r2, r', id);
  }

  lemma AfterResponseFits(r: State, r': State, id: ClientId)
    requires forall i :: i != id ==> ModeAt(r, i)
    requires r' == AfterResponse(r, id)
    requires Listed(r, id) ==>
               ModeFits(Answered(r.transports[id]), Outbox(r.log, id),
                        IsKilled(r.log, id) || r.transports[id].killRequested)
               && (r.transports[id].kind == TypeClient ==> AllPlain(Outbox(r.log, id)))
    ensures Modes(r') && Talking(r', id)
  {
    if id in r.transports && r.transports[id].killRequested {
      OutboxOneMore(r.log, Killed({id}));
      KilledOneMore(r.log, Killed({id}));
      EntryFits(r, r', Killed({id}), id);
      assert ModeAt(r', id);
    } else {
      assert r'.log == r.log;
      forall i ensures ModeAt(r', i) {
        assert i != id ==> ModeAt(r, i);
      }
    }
  }

  lemma HandlePacketFits(read: bytes -> Request, r: State, id: ClientId, packet: bytes)
    requires Sound(r) && Modes(r) && Talking(r, id)
    ensures Modes(HandlePacket(read, r, id, packet)) && Talking(HandlePacket(read, r, id, packet), id)
    ensures FromServer(r, id) ==> FromServer(HandlePacket(read, r, id, packet), id)
  {
    match read(packet)
    case Unusable(n) =>
      var c := ErrorResponse(n);
      var e, r1 := Letter(r, id, c), Send(r, id, c);
      var r' := Kill(r1, id);
      OutboxOneMore(r.log, e);
      KilledOneMore(r.log, e);
      EntryFits(r, r1, e, id);
      OutboxOneMore(r1.log, Killed({id}));
      KilledOneMore(r1.log, Killed({id}));
      EntryFits(r1, r', Killed({id}), id);
      assert ModeAt(r, id);
      if Listed(r, id) {
        ErrorFits(r.transports[id], Outbox(r.log, id), IsKilled(r.log, id), c);
      }
      assert ModeAt(r', id);
    case Call(n, p) =>
      HandleCallFits(r, id, n, p);
  }

  // ---------------------------------------------------------------- other steps

  lemma ForwardFits(r: State, c: Uuid, data: bytes, id: ClientId)
    requires Sound(r) && Modes(r) && c in r.clients
    requires Listed(r, id) ==> r.transports[id].kind == TypeServer
    ensures Modes(ForwardPayload(r, c, data)) && Talking(ForwardPayload(r, c, data), id)
  {
    var r', to := ForwardPayload(r, c, data), r.clients[c].transport;
    var e := Sent(to, Forward(data));
    assert HoldsTransport(r, to, TypeClient, c) && ModeAt(r, to);
    RawFits(Outbox(r.log, to), Forward(data));
    OutboxOneMore(r.log, e);
    KilledOneMore(r.log, e);
    forall i ensures ModeAt(r', i) {
      assert ModeAt(r, i);
    }
  }

  lemma TunnelFits(r: State, c: Uuid, u: Uuid, data: bytes)
    requires Sound(r) && Modes(r) && c in r.clients && u in r.servers
    ensures Modes(TunnelChunk(r, c, u, data))
  {
    var r', to := TunnelChunk(r, c, u, data), r.servers[u].transport;
    var m := Tunnel(r.clients[c].address, data);
    assert HoldsTransport(r, to, TypeServer, u) && ModeAt(r, to);
    if r.transports[to].slip {
      FramesFit(Outbox(r.log, to), m);
    }
    OutboxOneMore(r.log, Sent(to, m));
    KilledOneMore(r.log, Sent(to, m));
    forall i ensures ModeAt(r', i) {
      assert ModeAt(r, i);
    }
  }

  /** Flags other than the mode's may change freely. */
  lemma BufferFits(r: State, id: ClientId, buffer: bytes)
    requires Modes(r) && id in r.transports
    ensures Modes(WithBuffer(r, id, buffer))
    ensures forall i :: Talking(r, i) ==> Talking(WithBuffer(r, id, buffer), i)
  {
    forall i ensures ModeAt(WithBuffer(r, id, buffer), i) {
      assert ModeAt(r, i);
    }
  }

  lemma KillFits(r: State, id: ClientId)
    requires Modes(r)
    ensures Modes(Kill(r, id))
    ensures forall i :: Talking(r, i) ==> Talking(Kill(r, id), i)
  {
    OutboxOneMore(r.log, Killed({id}));
    KilledOneMore(r.log, Killed({id}));
    forall i ensures ModeAt(Kill(r, id), i) {
      assert ModeAt(r, i);
    }
  }

  lemma ConnectFits(r: State, id: ClientId, peer: string)
    requires Modes(r)
    ensures Modes(Connect(r, id, peer))
  {
    if Listed(r, id) {
      KillFits(r, id);
    } else {
      OutboxOneMore(r.log, Opened(id));
      KilledOneMore(r.log, Opened(id));
      forall i ensures ModeAt(Connect(r, id, peer), i) {
        assert ModeAt(r, i);
      }
    }
  }

  lemma PublishFits(r: State)
    requires Modes(r)
    ensures Modes(Publish(r))
  {
    OutboxOneMore(r.log, Published(r.troughputCounter));
    KilledOneMore(r.log, Published(r.troughputCounter));
    forall i ensures ModeAt(Publish(r), i) {
      assert ModeAt(r, i);
    }
  }

  ghost predicate FitsServer(r: State, e: Entry) {
    && e.Sent? && Listed(r, e.to) && r.transports[e.to].kind == TypeServer
    && ModeFits(r.transports[e.to], Outbox(r.log, e.to) + [e.message], IsKilled(r.log, e.to))
  }

  /** Closing a socket, with at most one more entry that fits its addressee. */
  lemma CloseFits(r: State, r': State, gone: ClientId, rest: seq<Entry>, id: ClientId)
    requires Modes(r) && Unlisted(r, r', gone)
    requires r'.log == r.log + [Closed(gone)] + rest && |rest| <= 1
    requires rest != [] ==> rest[0].Killed? || FitsServer(r, rest[0])
    ensures Modes(r') && (Talking(r, id) ==> Talking(r', id))
  {
    OutboxOneMore(r.log, Closed(gone));
    KilledOneMore(r.log, Closed(gone));
    if rest == [] {
      assert r'.log == r.log + [Closed(gone)];
    } else {
      assert rest == [rest[0]];
      OutboxOneMore(r.log + [Closed(gone)], rest[0]);
      KilledOneMore(r.log + [Closed(gone)], rest[0]);
    }
    forall i ensures ModeAt(r', i) {
      assert ModeAt(r, i);
    }
  }

  lemma DisconnectFits(r: State, gone: ClientId, id: ClientId)
    requires Sound(r) && Modes(r)
    ensures Modes(Disconnect(r, gone)) && (Talking(r, id) ==> Talking(Disconnect(r, gone), id))
  {
    if Listed(r, gone) {
      match r.transports[gone].kind
      case TypeServer =>
        var ids := DisconnectServerIs(r, gone);
        CloseFits(r, Disconnect(r, gone), gone, [Killed(ids)], id);
      case TypeNone =>
        assert Disconnect(r, gone).log == r.log + [Closed(gone)] + [];
        CloseFits(r, Disconnect(r, gone), gone, [], id);
      case TypeClient =>
        DisconnectClientFits(r, gone, id);
    }
  }

  lemma DisconnectClientFits(r: State, gone: ClientId, id: ClientId)
    requires Sound(r) && Modes(r) && Listed(r, gone) && r.transports[gone].kind == TypeClient
    ensures Modes(Disconnect(r, gone)) && (Talking(r, id) ==> Talking(Disconnect(r, gone), id))
  {
    var rest := DisconnectClientIs(r, gone);
    if rest != [] {
      var c := r.clients[r.transports[gone].uuid];
      assert ModeAt(r, r.servers[c.server.value].transport);
      NotificationFits(r, c.server.value, ClientDisconnected(r.notificationId, c.address));
    }
    CloseFits(r, Disconnect(r, gone), gone, rest, id);
  }

  // ---------------------------------------------------------------- chunks and runs

  lemma {:induction false} DisconnectAllFits(r: State, ids: seq<ClientId>, id: ClientId)
    requires Sound(r) && Modes(r) && Talking(r, id)
    ensures Modes(DisconnectAll(r, ids)) && Talking(DisconnectAll(r, ids), id)
  {
    if ids != [] {
      var n := |ids| - 1;
      DisconnectAllKeeps(r, ids[..n]);
      DisconnectAllFits(r, ids[..n], id);
      DisconnectFits(DisconnectAll(r, ids[..n]), ids[n], id);
    }
  }

  lemma HandleFrameFits(read: bytes -> Request, r: State, id: ClientId, raw: bytes)
    requires Sound(r) && Modes(r) && FromServer(r, id)
    ensures Modes(HandleFrame(read, r, id, raw)) && FromServer(HandleFrame(read, r, id, raw), id)
    ensures Talking(HandleFrame(read, r, id, raw), id)
  {
    var frame := SlipDataProcessor.Parsed(raw);
    if frame.socketAddress == JSON_ADDRESS {
      HandlePacketFits(read, r, id, frame.data);
    } else if id in r.transports && r.transports[id].uuid in r.servers {
      var u := r.transports[id].uuid;
      if frame.socketAddress in r.servers[u].byAddress {
        assert IsIndexed(r, u, frame.socketAddress);
        ForwardFits(r, r.servers[u].byAddress[frame.socketAddress], frame.data, id);
      }
    }
  }

  lemma {:induction false} DisconnectAllListed(r: State, ids: seq<ClientId>, id: ClientId)
    requires Listed(DisconnectAll(r, ids), id)
    ensures Listed(r, id) && DisconnectAll(r, ids).transports[id] == r.transports[id]
  {
    if ids != [] {
      var n := |ids| - 1;
      DisconnectListed(DisconnectAll(r, ids[..n]), ids[n], id);
      DisconnectAllListed(r, ids[..n], id);
    }
  }

  lemma {:induction false} HandleItemsFits(read: bytes -> Request, r: State, id: ClientId, items: seq<bytes>,
                                           slip: bool, hangups: seq<seq<ClientId>>)
    requires Sound(r) && Modes(r) && Talking(r, id) && (slip ==> FromServer(r, id))
    ensures var r' := HandleItems(read, r, id, items, slip, hangups);
            Modes(r') && Talking(r', id) && (slip ==> FromServer(r', id))
  {
    if items != [] {
      var n := |items| - 1;
      HandleItemsKeeps(read, r, id, items[..n], slip, hangups);
      HandleItemsFits(read, r, id, items[..n], slip, hangups);
      var r1 := HandleItems(read, r, id, items[..n], slip, hangups);
      var r2 := if slip then HandleFrame(read, r1, id, items[n]) else HandlePacket(read, r1, id, items[n]);
      if slip {
        HandleFrameKeeps(read, r1, id, items[n]);
        HandleFrameFits(read, r1, id, items[n]);
      } else {
        HandlePacketKeeps(read, r1, id, items[n]);
        HandlePacketFits(read, r1, id, items[n]);
      }
      DisconnectAllFits(r2, Hangups(hangups, n), id);
      var r' := DisconnectAll(r2, Hangups(hangups, n));
      if slip && Listed(r', id) {
        DisconnectAllListed(r2, Hangups(hangups, n), id);
      }
    }
  }

  lemma ReceiveJsonFits(read: bytes -> Request, r: State, id: ClientId, data: bytes, hangups: seq<seq<ClientId>>)
    requires Sound(r) && Modes(r) && Talking(r, id) && id in r.transports
    ensures Modes(ReceiveJson(read, r, id, data, hangups))
  {
    var s := JsonStream.Ingest(r.transports[id].buffer, data);
    var r1 := WithBuffer(r, id, s.buffer);
    RetouchKeeps(r, id, r.transports[id].(buffer := s.buffer));
    BufferFits(r, id, s.buffer);
    KillFits(r1, id);
    HandleItemsFits(read, r1, id, s.Packets(), false, hangups);
  }

  lemma ReceiveSlipFits(read: bytes -> Request, r: State, id: ClientId, data: bytes, hangups: seq<seq<ClientId>>)
    requires Sound(r) && Modes(r) && Listed(r, id) && r.transports[id].kind == TypeServer
    ensures Modes(ReceiveSlip(read, r, id, data, hangups))
  {
    var s := Framing.Assemble(r.transports[id].buffer, data);
    RetouchKeeps(r, id, r.transports[id].(buffer := s.buffer));
    BufferFits(r, id, s.buffer);
    HandleItemsFits(read, WithBuffer(r, id, s.buffer), id, s.frames, true, hangups);
  }

  lemma ReceiveFits(read: bytes -> Request, r: State, id: ClientId, data: bytes, hangups: seq<seq<ClientId>>)
    requires Sound(r) && Modes(r)
    ensures Modes(Receive(read, r, id, data, hangups))
  {
    if Listed(r, id) {
      var t := r.transports[id];
      if t.kind == TypeClient {
        if t.uuid in r.clients && r.clients[t.uuid].server.Some? && r.clients[t.uuid].server.value in r.servers {
          TunnelFits(r, t.uuid, r.clients[t.uuid].server.value, data);
        }
      } else if t.kind == TypeServer && t.slip {
        ReceiveSlipFits(read, r, id, data, hangups);
      } else {
        ReceiveJsonFits(read, r, id, data, hangups);
      }
    }
  }

  lemma StepFits(read: bytes -> Request, r: State, e: Event)
    requires Sound(r) && Modes(r)
    ensures Modes(Step(read, r, e))
  {
    match e
    case Connected(id, peer) => ConnectFits(r, id, peer);
    case Disconnected(id) => DisconnectFits(r, id, id);
    case Data(id, data, hangups) => ReceiveFits(read, r, id, data, hangups);
    case Inactive(id) => KillFits(r, id);
    case Tick => PublishFits(r);
  }

  lemma NobodyFits(r: State)
    requires r.transports == map[]
    ensures Modes(r)
  {
  }

  /** Single mode switch, over any run, crowded or not. */
  lemma {:induction false} RunFits(read: bytes -> Request, es: seq<Event>)
    ensures Modes(Run(read, es))
  {
    if es == [] {
      NobodyFits(INIT);
    } else {
      var n := |es| - 1;
      RunIsSound(read, es[..n]);
      RunFits(read, es[..n]);
      StepFits(read, Run(read, es[..n]), es[n]);
    }
  }
}
