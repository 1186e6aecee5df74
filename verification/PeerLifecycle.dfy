/** The life of a peer: what each event other than data does to it, and how it comes to run.
    Everything is stated on Step, in terms of what can be seen of the peer before and after. */
module PeerLifecycle {
  import opened Bytes
  import opened Sessions
  import opened Messages
  import opened SocketServer
  import JsonStream
  import Framing
  import SlipDataProcessor
  import PeerStream

  // ---------------------------------------------------------------- starting and stopping

  /** Whether the reconnect timer is armed after the signals of connectServer: a connection
      that is made stops it, and an enabled server that falls back arms it. */
  predicate ArmedAfter(armed: bool, enabled: bool, emitted: seq<SocketState>) {
    if emitted == [] then armed else
      var init := emitted[..|emitted| - 1];
      match emitted[|emitted| - 1]
      case ConnectedState => false
      case UnconnectedState =>
        (enabled && StateAfter(init) != StateDisconnected) || ArmedAfter(armed, enabled, init)
      case _ => ArmedAfter(armed, enabled, init)
  }

  /** From p to q an attempt to connect was made: every session has ended, a new JSON client
      is there, and the state is where the connection has got to so far. */
  predicate Attempted(p: Node, q: Node, emitted: seq<SocketState>) {
    && q.enabled && !q.running && q.state == StateAfter(emitted)
    && q.client == Some(JsonClient([], None)) && q.sockets == map[]
    && q.signals == p.signals + EndOf(p.sockets)
    && q.reconnectArmed
       == ArmedAfter(p.reconnectArmed || (p.enabled && p.state != StateDisconnected), p.enabled, emitted)
  }

  /** The sessions open on some sockets, ended at once. */
  function EndOf(sockets: map<u16, Uuid>): seq<SessionEvent> {
    if sockets == map[] then [] else [End(sockets.Keys)]
  }

  /** One signal of the connection. */
  lemma OneSignal(p: Node, s: SocketState)
    requires Inv(p)
    ensures var q := OnConnectionStateChanged(p, s);
            && Inv(q) && q.enabled == p.enabled && q.client == p.client && q.sockets == p.sockets
               && q.signals == p.signals
            && q.state == (if s.BoundState? || s.ListeningState? then p.state else StateAfter([s]))
            && q.reconnectArmed
               == ((s.UnconnectedState? && p.enabled && p.state != StateDisconnected)
                   || (p.reconnectArmed && !s.ConnectedState?))
  {
    OneState(s);
    StateChangeKeeps(p, s);
  }

  lemma OneState(s: SocketState)
    ensures StateAfter([s]) ==
            match s
            case HostLookupState => StateHostLookup
            case ConnectingState => StateConnecting
            case ConnectedState => StateConnected
            case ClosingState => StateDisconnecting
            case _ => StateDisconnected
  {
    assert [s][..0] == [];
  }

  lemma {:induction false} StatesAttempt(p: Node, emitted: seq<SocketState>)
    requires Inv(p) && p.state == StateDisconnected
    ensures var q := OnConnectionStates(p, emitted);
            && Inv(q) && q.state == StateAfter(emitted) && q.enabled == p.enabled && q.client == p.client
            && q.sockets == p.sockets && q.signals == p.signals
            && q.reconnectArmed == ArmedAfter(p.reconnectArmed, p.enabled, emitted)
  {
    if emitted != [] {
      OneState(emitted[|emitted| - 1]);
      StatesAttempt(p, emitted[..|emitted| - 1]);
      OneSignal(OnConnectionStates(p, emitted[..|emitted| - 1]), emitted[|emitted| - 1]);
    }
  }

  lemma {:induction false} NeverRunningAfter(emitted: seq<SocketState>)
    ensures StateAfter(emitted) != StateRunning
  {
    if emitted != [] {
      NeverRunningAfter(emitted[..|emitted| - 1]);
    }
  }

  lemma StartAttempts(p: Node, emitted: seq<SocketState>)
    requires Inv(p)
    ensures Attempted(p, StartServer(p, emitted), emitted)
  {
    CleanUpEnds(p);
    assert p.signals + [] == p.signals;
    NeverRunningAfter(emitted);
    StatesAttempt(CleanUp(p).(client := Some(JsonClient([], None))), emitted);
  }

  /** Starting makes an attempt, whatever went on before; an invalid url changes nothing. */
  lemma StartExactly(decode: Decoder, p: Peer, valid: bool, emitted: seq<SocketState>)
    requires Inv(p.node)
    ensures var q := Step(decode, p, Start(valid, emitted));
            && q.buffer == p.buffer && (!valid ==> q == p) && (valid ==> Attempted(p.node, q.node, emitted))
  {
    StartAttempts(p.node, emitted);
  }

  /** The reconnect timer makes an attempt exactly when it is armed, so that the server is
      enabled, and the connection is down; else nothing happens. */
  lemma ReconnectTimeoutExactly(decode: Decoder, p: Peer, emitted: seq<SocketState>)
    requires Inv(p.node)
    ensures var n, q := p.node, Step(decode, p, ReconnectTimeout(emitted));
            && q.buffer == p.buffer
            && (n.reconnectArmed && n.enabled && n.state == StateDisconnected ==> Attempted(n, q.node, emitted))
            && (n.reconnectArmed && n.enabled && n.state != StateDisconnected ==> q == p)
            && (!n.reconnectArmed ==> q == p)
  {
    StartAttempts(p.node, emitted);
  }

  /** Stopping disables the server and its reconnect timer; sockets and sessions are left to
      the disconnect that follows. */
  lemma StopExactly(decode: Decoder, p: Peer)
    ensures var q := Step(decode, p, Stop);
            && !q.node.enabled && !q.node.reconnectArmed && q.buffer == p.buffer
            && q.node.state == p.node.state && q.node.running == p.node.running && q.node.client == p.node.client
            && q.node.sockets == p.node.sockets && q.node.signals == p.node.signals
            && q.node.keepAliveArmed == p.node.keepAliveArmed
  {
  }

  predicate NeverStarts(es: seq<Event>) {
    forall i :: 0 <= i < |es| ==> !es[i].Start?
  }

  lemma StepStaysStopped(decode: Decoder, p: Peer, e: Event)
    requires Inv(p.node) && !p.node.enabled && !e.Start?
    ensures !Step(decode, p, e).node.enabled && (e.ReconnectTimeout? ==> Step(decode, p, e) == p)
  {
    match e
    case DataAvailable(data) => DataStaysStopped(decode, p, data);
    case _ =>
  }

  /** A reply tells the application nothing about sessions. */
  lemma RepliesAreSilent(p: Node, pending: Pending, c: Control)
    ensures var q := OnReply(p, pending, c);
            q.enabled == p.enabled && q.signals == p.signals && q.sockets == p.sockets
  {
  }

  lemma PacketKeepsEnabled(decode: Decoder, p: Node, packet: bytes)
    ensures OnPacket(decode, p, packet).enabled == p.enabled
  {
    if decode(packet).Some? && p.client.Some? && p.client.value.pending.Some? {
      var taken := p.(client := Some(p.client.value.(pending := None)));
      RepliesAreSilent(taken, p.client.value.pending.value, decode(packet).value);
    }
  }

  lemma {:induction false} PacketsKeepEnabled(decode: Decoder, p: Node, packets: seq<bytes>)
    ensures OnPackets(decode, p, packets).enabled == p.enabled
  {
    if packets != [] {
      PacketsKeepEnabled(decode, p, packets[..|packets| - 1]);
      PacketKeepsEnabled(decode, OnPackets(decode, p, packets[..|packets| - 1]), packets[|packets| - 1]);
    }
  }

  lemma JsonKeepsEnabled(decode: Decoder, p: Node, data: bytes)
    ensures ReceiveJson(decode, p, data).enabled == p.enabled
  {
    if p.client.Some? {
      var r := JsonStream.Ingest(p.client.value.buffer, data);
      PacketsKeepEnabled(decode, p.(client := Some(p.client.value.(buffer := r.buffer))), r.Packets());
    }
  }

  lemma {:induction false} FramesKeepEnabled(decode: Decoder, p: Node, frames: seq<SlipDataProcessor.Frame>)
    ensures DispatchAll(decode, p, frames).enabled == p.enabled
  {
    if frames != [] {
      var init, frame := DispatchAll(decode, p, frames[..|frames| - 1]), frames[|frames| - 1];
      FramesKeepEnabled(decode, p, frames[..|frames| - 1]);
      JsonKeepsEnabled(decode, init, frame.data);
    }
  }

  lemma DataStaysStopped(decode: Decoder, p: Peer, data: bytes)
    requires !p.node.enabled
    ensures !OnDataAvailable(decode, p, data).node.enabled
  {
    var node := p.node.(keepAliveArmed := true);
    JsonKeepsEnabled(decode, node, data);
    FramesKeepEnabled(decode, node, Framing.PeerFrames(Framing.Split(p.buffer + data).pieces));
  }

  /** Once stopped, nothing but a start has the peer connect again: over all event orders. */
  lemma {:induction false} StoppedStaysStopped(decode: Decoder, p: Peer, es: seq<Event>)
    requires Inv(p.node) && Faithful(p.node) && NeverStarts(es)
    ensures var q := PeerStream.After(decode, Step(decode, p, Stop), es);
            && Inv(q.node) && Faithful(q.node) && !q.node.enabled && !q.node.reconnectArmed
            && forall emitted :: Step(decode, q, ReconnectTimeout(emitted)) == q
  {
    if es == [] {
      StepKeeps(decode, p, Stop);
    } else {
      var init, e := es[..|es| - 1], es[|es| - 1];
      assert !e.Start? && forall i :: 0 <= i < |init| ==> init[i] == es[i];
      StoppedStaysStopped(decode, p, init);
      StepKeeps(decode, PeerStream.After(decode, Step(decode, p, Stop), init), e);
      StepStaysStopped(decode, PeerStream.After(decode, Step(decode, p, Stop), init), e);
    }
  }

  // ---------------------------------------------------------------- the connection

  /** Nothing the application can see has changed, and nothing that waits. */
  predicate SameTalk(p: Peer, q: Peer) {
    && q.node.client == p.node.client && q.node.sockets == p.node.sockets && q.node.signals == p.node.signals
    && q.node.enabled == p.node.enabled && q.buffer == p.buffer
  }

  /** A change of the socket's state is followed, whatever the state was before. Leaving
      StateRunning stops the ping timer, a connection stops the reconnect timer, and falling
      back to unconnected arms it for an enabled server. */
  lemma StateChangedExactly(decode: Decoder, p: Peer, s: SocketState)
    requires Inv(p.node)
    ensures var q := Step(decode, p, StateChanged(s));
            && SameTalk(p, q) && (s.BoundState? || s.ListeningState? ==> q == p)
            && (!s.BoundState? && !s.ListeningState? ==>
                  && q.node.state == StateAfter([s]) && !q.node.running
                  && q.node.reconnectArmed
                     == ((s.UnconnectedState? && p.node.enabled && p.node.state != StateDisconnected)
                         || (p.node.reconnectArmed && !s.ConnectedState?))
                  && (p.node.running ==> !q.node.keepAliveArmed))
  {
    OneSignal(p.node, s);
  }

  /** A connection asks for Hello. */
  lemma ConnectionExactly(decode: Decoder, p: Peer)
    requires Inv(p.node)
    ensures var n, q := p.node, Step(decode, p, ConnectionChanged(true));
            && q.buffer == p.buffer && q.node.enabled == n.enabled && !q.node.running
            && (n.running ==> !q.node.keepAliveArmed)
            && q.node.state == StateInitializing && q.node.reconnectArmed == n.reconnectArmed
            && q.node.sockets == n.sockets && q.node.signals == n.signals
            && (n.client.None? ==> q.node.client.None?)
            && (n.client.Some? ==> q.node.client == Some(n.client.value.(pending := Some(PendingHello))))
  {
  }

  /** A lost connection ends every session, drops the JSON client, and arms the reconnect
      timer of an enabled server. */
  lemma ConnectionLostExactly(decode: Decoder, p: Peer)
    requires Inv(p.node)
    ensures var n, q := p.node, Step(decode, p, ConnectionChanged(false));
            && q.buffer == p.buffer && q.node.enabled == n.enabled && !q.node.running
            && (n.running ==> !q.node.keepAliveArmed)
            && q.node.state == StateDisconnected && q.node.client.None? && q.node.sockets == map[]
            && q.node.signals == n.signals + EndOf(n.sockets)
            && q.node.reconnectArmed == (n.reconnectArmed || (n.enabled && n.state != StateDisconnected))
  {
    assert p.node.signals + [] == p.node.signals;
  }

  /** The ping timer of a running peer sends a request; any other peer's stops. */
  lemma KeepAliveTimeoutExactly(decode: Decoder, p: Peer)
    requires Inv(p.node)
    ensures var n, q := p.node, Step(decode, p, KeepAliveTimeout);
            && (n.running ==> q == Waiting(p, PendingOther))
            && (!n.running ==> q == p.(node := n.(keepAliveArmed := false)))
  {
  }

  function Waiting(p: Peer, pending: Pending): Peer
    requires p.node.client.Some?
  {
    p.(node := p.node.(client := Some(p.node.client.value.(pending := Some(pending)))))
  }

  lemma {:induction false} PacketsRearm(decode: Decoder, p: Node, packets: seq<bytes>)
    requires Inv(p) && p.keepAliveArmed
    ensures OnPackets(decode, p, packets).keepAliveArmed
  {
    if packets != [] {
      PacketsRearm(decode, p, packets[..|packets| - 1]);
      PacketsKeep(decode, p, packets[..|packets| - 1]);
    }
  }

  lemma JsonRearms(decode: Decoder, p: Node, data: bytes)
    requires Inv(p) && p.keepAliveArmed
    ensures ReceiveJson(decode, p, data).keepAliveArmed
  {
    if p.client.Some? {
      var r := JsonStream.Ingest(p.client.value.buffer, data);
      PacketsRearm(decode, p.(client := Some(p.client.value.(buffer := r.buffer))), r.Packets());
    }
  }

  lemma {:induction false} FramesRearm(decode: Decoder, p: Node, frames: seq<SlipDataProcessor.Frame>)
    requires Inv(p) && p.keepAliveArmed
    ensures DispatchAll(decode, p, frames).keepAliveArmed
  {
    if frames != [] {
      FramesRearm(decode, p, frames[..|frames| - 1]);
      DispatchAllKeeps(decode, p, frames[..|frames| - 1]);
      JsonRearms(decode, DispatchAll(decode, p, frames[..|frames| - 1]), frames[|frames| - 1].data);
    }
  }

  /** Any data re-arms the ping timer, in any state. */
  lemma DataRearms(decode: Decoder, p: Peer, data: bytes)
    requires Inv(p.node)
    ensures Step(decode, p, DataAvailable(data)).node.keepAliveArmed
  {
    var node := p.node.(keepAliveArmed := true);
    JsonRearms(decode, node, data);
    FramesRearm(decode, node, Framing.PeerFrames(Framing.Split(p.buffer + data).pieces));
  }

  // ---------------------------------------------------------------- the handshake

  /** A peer that does not run yet, with nothing left of an earlier packet. */
  predicate IsAsking(p: Peer, state: State, pending: Pending) {
    p.node.state == state && p.node.client == Some(JsonClient([], Some(pending)))
  }

  /** A control message that arrives in chunks of its own. */
  ghost predicate Brings(codec: Codec, chunks: seq<bytes>, c: Control) {
    Prints(codec, c) && Concat(chunks) == codec.encode(c) && JsonStream.CutSafely(chunks)
  }

  predicate IsPlain(p: Peer) {
    p.node.state != StateRunning && p.node.client.Some? && p.node.client.value.buffer == []
  }

  /** The same peer with part of a packet in the buffer of its JSON client. */
  function Holding(p: Peer, buffer: bytes): Peer
    requires p.node.client.Some?
  {
    Peer(p.node.(keepAliveArmed := true, client := Some(p.node.client.value.(buffer := buffer))), [])
  }

  lemma {:induction false} PartOfControl(decode: Decoder, p: Peer, chunks: seq<bytes>)
    requires IsPlain(p) && chunks != []
    requires JsonStream.Unsplit(Concat(chunks)) && JsonStream.CutSafely(chunks)
    requires !JsonStream.EndsPacket(Concat(chunks))
    ensures Feed(decode, p, chunks) == Holding(p, Concat(chunks))
  {
    var n := |chunks| - 1;
    var before := Concat(chunks[..n]);
    JsonStream.ConcatPrefix(chunks);
    JsonStream.UnsplitPrefix(Concat(chunks), |before|);
    JsonStream.CutSafelyButLast(chunks);
    if n > 0 {
      PartOfControl(decode, p, chunks[..n]);
    }
    assert JsonStream.Ingest(before, chunks[n]) == JsonStream.Ingested([], None, Concat(chunks));
    ChunkIsHeld(decode, if n > 0 then Holding(p, before) else p, before, chunks[n]);
  }

  lemma ChunkIsHeld(decode: Decoder, p: Peer, buffer: bytes, data: bytes)
    requires p.node.state != StateRunning && p.node.client.Some? && p.node.client.value.buffer == buffer
    requires JsonStream.Ingest(buffer, data) == JsonStream.Ingested([], None, buffer + data)
    ensures OnDataAvailable(decode, p, data) == Holding(p, buffer + data)
  {
  }

  lemma ChunkEndsIt(decode: Decoder, p: Peer, buffer: bytes, data: bytes)
    requires p.node.state != StateRunning && p.node.client.Some? && p.node.client.value.buffer == buffer
    requires JsonStream.Unsplit(buffer + data) && JsonStream.EndsPacket(buffer + data)
    ensures OnDataAvailable(decode, p, data) == Peer(OnPacket(decode, Holding(p, []).node, buffer + data), [])
  {
    JsonStream.LastChunk(buffer, data);
    var packets: seq<bytes> := [buffer + data];
    assert packets[..0] == [] && packets[0] == buffer + data;
    assert OnPackets(decode, Holding(p, []).node, packets[..0]) == Holding(p, []).node;
  }

  /** A control message, in plain and cut as it may be, for a peer that does not run. */
  lemma PlainControl(codec: Codec, p: Peer, c: Control, chunks: seq<bytes>)
    requires IsPlain(p) && Brings(codec, chunks, c)
    ensures Feed(codec.decode, p, chunks)
            == Peer(OnPacket(codec.decode, p.node.(keepAliveArmed := true), codec.encode(c)), [])
  {
    var n := |chunks| - 1;
    var before := Concat(chunks[..n]);
    JsonStream.ConcatPrefix(chunks);
    JsonStream.UnsplitPrefix(Concat(chunks), |before|);
    JsonStream.CutSafelyButLast(chunks);
    if n > 0 {
      PartOfControl(codec.decode, p, chunks[..n]);
    }
    var q := if n > 0 then Holding(p, before) else p;
    ChunkEndsIt(codec.decode, q, before, chunks[n]);
    assert Holding(q, []).node == p.node.(keepAliveArmed := true);
  }

  /** A reply takes the request that waits. */
  function Taken(p: Node): Node
    requires p.client.Some?
  {
    p.(keepAliveArmed := true, client := Some(p.client.value.(pending := None)))
  }

  lemma AnswerIsReply(codec: Codec, p: Peer, c: Control, chunks: seq<bytes>)
    requires Inv(p.node) && IsPlain(p) && p.node.client.value.pending.Some? && c.id == 0 && Brings(codec, chunks, c)
    ensures Feed(codec.decode, p, chunks) == Peer(OnReply(Taken(p.node), p.node.client.value.pending.value, c), [])
    ensures Inv(Feed(codec.decode, p, chunks).node)
  {
    PlainControl(codec, p, c, chunks);
    PacketKeeps(codec.decode, p.node.(keepAliveArmed := true), codec.encode(c));
  }

  /** The answer to Hello: with a response the peer registers, with an error it does not. */
  lemma HelloIsAnswered(codec: Codec, p: Peer, c: Control, chunks: seq<bytes>)
    requires Inv(p.node) && IsAsking(p, StateInitializing, PendingHello)
    requires c.id == 0 && c.IsAnswer() && Brings(codec, chunks, c)
    ensures var q := Feed(codec.decode, p, chunks);
            && Inv(q.node) && q.buffer == [] && q.node.signals == p.node.signals && q.node.sockets == p.node.sockets
            && q.node.enabled == p.node.enabled && !q.node.running
            && (c.Response? ==> IsAsking(q, StateRegister, PendingRegister))
            && (c.ErrorResponse? ==> q.node.state == StateInitializing && q.node.client == Some(JsonClient([], None)))
  {
    AnswerIsReply(codec, p, c, chunks);
    RepliesAreSilent(Taken(p.node), PendingHello, c);
  }

  /** The answer to the registration: the peer runs if and only if it was accepted. */
  lemma RegistrationIsAnswered(codec: Codec, p: Peer, c: Control, chunks: seq<bytes>)
    requires Inv(p.node) && IsAsking(p, StateRegister, PendingRegister)
    requires c.id == 0 && c.IsAnswer() && Brings(codec, chunks, c)
    ensures var q := Feed(codec.decode, p, chunks);
            && Inv(q.node) && q.buffer == [] && q.node.signals == p.node.signals && q.node.sockets == p.node.sockets
            && q.node.enabled == p.node.enabled && q.node.client == Some(JsonClient([], None))
            && (q.node.running <==> c.Response? && c.reply == ServerRegistration(NoError))
            && (!q.node.running ==> q.node.state == StateRegister)
  {
    AnswerIsReply(codec, p, c, chunks);
    RepliesAreSilent(Taken(p.node), PendingRegister, c);
  }

  /** Chunks as events. */
  function Arriving(chunks: seq<bytes>): (es: seq<Event>)
    ensures |es| == |chunks| && forall i :: 0 <= i < |chunks| ==> es[i] == DataAvailable(chunks[i])
  {
    seq(|chunks|, i requires 0 <= i < |chunks| => DataAvailable(chunks[i]))
  }

  lemma OneMoreEvent(decode: Decoder, p: Peer, es: seq<Event>, e: Event)
    ensures PeerStream.After(decode, p, es + [e]) == Step(decode, PeerStream.After(decode, p, es), e)
  {
    assert (es + [e])[..|es|] == es;
  }

  lemma LastArriving(es: seq<Event>, chunks: seq<bytes>)
    requires chunks != []
    ensures es + Arriving(chunks) == (es + Arriving(chunks[..|chunks| - 1])) + [DataAvailable(chunks[|chunks| - 1])]
  {
  }

  lemma {:induction false} ArrivingFeeds(decode: Decoder, p: Peer, es: seq<Event>, chunks: seq<bytes>)
    ensures PeerStream.After(decode, p, es + Arriving(chunks)) == Feed(decode, PeerStream.After(decode, p, es), chunks)
  {
    if chunks == [] {
      assert es + Arriving(chunks) == es;
    } else {
      var init, data := chunks[..|chunks| - 1], chunks[|chunks| - 1];
      ArrivingFeeds(decode, p, es, init);
      LastArriving(es, chunks);
      OneMoreEvent(decode, p, es + Arriving(init), DataAvailable(data));
    }
  }

  /** A start, a connection, and the bytes of what the proxy answers to the two calls that
      follow. */
  function Handshake(emitted: seq<SocketState>, hello: seq<bytes>, registered: seq<bytes>): seq<Event> {
    [Start(true, emitted), ConnectionChanged(true)] + Arriving(hello) + Arriving(registered)
  }

  lemma HandshakeFeeds(decode: Decoder, p: Peer, emitted: seq<SocketState>, hello: seq<bytes>, registered: seq<bytes>)
    ensures PeerStream.After(decode, p, Handshake(emitted, hello, registered))
            == Feed(decode, Feed(decode, Connected(decode, p, emitted), hello), registered)
  {
    var start: seq<Event> := [Start(true, emitted), ConnectionChanged(true)];
    OneMoreEvent(decode, p, [], Start(true, emitted));
    OneMoreEvent(decode, p, [Start(true, emitted)], ConnectionChanged(true));
    assert [] + [Start(true, emitted)] == [Start(true, emitted)];
    assert [Start(true, emitted)] + [ConnectionChanged(true)] == start;
    ArrivingFeeds(decode, p, start, hello);
    ArrivingFeeds(decode, p, start + Arriving(hello), registered);
  }

  /** A peer that was started and has been connected. */
  function Connected(decode: Decoder, p: Peer, emitted: seq<SocketState>): Peer {
    Step(decode, Step(decode, p, Start(true, emitted)), ConnectionChanged(true))
  }

  /** After the connection is made the peer waits for Hello, whatever it was before. */
  lemma Connects(decode: Decoder, p: Peer, emitted: seq<SocketState>)
    requires Inv(p.node)
    ensures var q := Connected(decode, p, emitted);
            && Inv(q.node) && IsAsking(q, StateInitializing, PendingHello) && q.node.enabled
            && q.node.sockets == map[] && q.node.signals == p.node.signals + EndOf(p.node.sockets)
  {
    StartExactly(decode, p, true, emitted);
    StartInv(p.node, emitted);
    ConnectionExactly(decode, Step(decode, p, Start(true, emitted)));
    ConnectionInv(Step(decode, p, Start(true, emitted)).node);
  }

  lemma StartInv(p: Node, emitted: seq<SocketState>)
    requires Inv(p)
    ensures Inv(StartServer(p, emitted))
  {
    CleanUpEnds(p);
    StatesKeep(CleanUp(p).(client := Some(JsonClient([], None))), emitted);
  }

  lemma ConnectionInv(p: Node)
    requires Inv(p)
    ensures Inv(OnConnectionChanged(p, true))
  {
    SetStateKeeps(p, StateConnected);
    SetStateKeeps(SetState(p, StateConnected), StateInitializing);
  }

  /** The whole handshake, from any state of any peer and however the answers are cut: every
      session the peer had before has ended, nothing is left in its buffers and nothing
      waits, and it runs if and only if Hello got a response and the registration was
      accepted. */
  lemma HandshakeRunsExactly(codec: Codec, p: Peer, emitted: seq<SocketState>, hello: Control, registered: Control,
                             helloChunks: seq<bytes>, registeredChunks: seq<bytes>)
    requires Inv(p.node) && hello.id == 0 && hello.IsAnswer() && registered.id == 0 && registered.IsAnswer()
    requires Brings(codec, helloChunks, hello) && Brings(codec, registeredChunks, registered)
    ensures var q := PeerStream.After(codec.decode, p, Handshake(emitted, helloChunks, registeredChunks));
            && Inv(q.node) && q.buffer == [] && q.node.enabled && q.node.client == Some(JsonClient([], None))
            && q.node.sockets == map[] && q.node.signals == p.node.signals + EndOf(p.node.sockets)
            && (q.node.running <==>
                  hello.Response? && registered.Response? && registered.reply == ServerRegistration(NoError))
  {
    HandshakeFeeds(codec.decode, p, emitted, helloChunks, registeredChunks);
    var p1 := Connected(codec.decode, p, emitted);
    Connects(codec.decode, p, emitted);
    HelloIsAnswered(codec, p1, hello, helloChunks);
    var p2 := Feed(codec.decode, p1, helloChunks);
    if hello.Response? {
      RegistrationIsAnswered(codec, p2, registered, registeredChunks);
    } else {
      NobodyAsked(codec, p2, registered, registeredChunks);
    }
  }

  /** An answer that nobody waits for changes nothing but the ping timer. */
  lemma NobodyAsked(codec: Codec, p: Peer, c: Control, chunks: seq<bytes>)
    requires IsPlain(p) && p.node.client.value.pending.None? && c.IsAnswer() && Brings(codec, chunks, c)
    ensures Feed(codec.decode, p, chunks) == Peer(p.node.(keepAliveArmed := true), [])
  {
    PlainControl(codec, p, c, chunks);
  }

  /** Nothing but an accepted registration that was asked for makes a peer run. */
  lemma RunsOnlyOnAcceptance(decode: Decoder, p: Node, packet: bytes)
    requires Inv(p) && p.state != StateRunning
    ensures OnPacket(decode, p, packet).state == StateRunning <==>
              p.client.Some? && p.client.value.pending == Some(PendingRegister)
              && decode(packet) == Some(Response(0, ServerRegistration(NoError)))
  {
  }

  // ---------------------------------------------------------------- closed sockets

  /** The addresses on which a session has begun and not ended, whatever else was told. */
  function OpenAddresses(signals: seq<SessionEvent>): set<u16> {
    if signals == [] then {} else NextOpen(OpenAddresses(signals[..|signals| - 1]), signals[|signals| - 1])
  }

  function NextOpen(begun: set<u16>, e: SessionEvent): set<u16> {
    match e
    case Begin(a, _) => begun + {a}
    case Chunk(_, _) => begun
    case End(addresses) => begun - addresses
  }

  /** The application is told of data, and of an end, only on sockets that are open. */
  predicate OnlyOpenSockets(signals: seq<SessionEvent>) {
    signals == []
    || (OnlyOpenSockets(signals[..|signals| - 1])
        && IsOfOpen(OpenAddresses(signals[..|signals| - 1]), signals[|signals| - 1]))
  }

  predicate IsOfOpen(begun: set<u16>, e: SessionEvent) {
    match e
    case Begin(_, _) => true
    case Chunk(a, _) => a in begun
    case End(addresses) => addresses <= begun
  }

  predicate IsTold(p: Node) {
    OnlyOpenSockets(p.signals) && OpenAddresses(p.signals) == p.sockets.Keys
  }

  lemma OneMoreSignal(p: Node, q: Node, e: SessionEvent)
    requires IsTold(p) && IsOfOpen(p.sockets.Keys, e) && q.signals == p.signals + [e]
    requires q.sockets.Keys == OpenAddresses(p.signals + [e])
    ensures IsTold(q)
  {
    assert (p.signals + [e])[..|p.signals|] == p.signals;
  }

  lemma SignalOpens(signals: seq<SessionEvent>, e: SessionEvent)
    ensures OpenAddresses(signals + [e]) == NextOpen(OpenAddresses(signals), e)
  {
    assert (signals + [e])[..|signals|] == signals;
  }

  lemma SameTold(p: Node, q: Node)
    requires IsTold(p) && q.signals == p.signals && q.sockets == p.sockets
    ensures IsTold(q)
  {
  }

  lemma CleanUpTold(p: Node)
    requires Inv(p) && IsTold(p)
    ensures IsTold(CleanUp(p))
  {
    CleanUpEnds(p);
    if p.sockets != map[] {
      SignalOpens(p.signals, End(p.sockets.Keys));
      OneMoreSignal(p, CleanUp(p), End(p.sockets.Keys));
    }
  }

  lemma ConnectedTold(p: Node, a: u16, client: Uuid)
    requires IsTold(p)
    ensures IsTold(OnClientConnected(p, a, client))
  {
    SignalOpens(p.signals, Begin(a, client));
    OneMoreSignal(p, OnClientConnected(p, a, client), Begin(a, client));
  }

  lemma DisconnectedTold(p: Node, a: u16)
    requires IsTold(p)
    ensures IsTold(OnClientDisconnected(p, a))
  {
    if a in p.sockets {
      SignalOpens(p.signals, End({a}));
      OneMoreSignal(p, OnClientDisconnected(p, a), End({a}));
    }
  }

  lemma PacketTold(decode: Decoder, p: Node, packet: bytes)
    requires IsTold(p)
    ensures IsTold(OnPacket(decode, p, packet))
  {
    match decode(packet)
    case None =>
    case Some(c) =>
      if c.id == 0 && p.client.Some? && p.client.value.pending.Some? {
        var taken := p.(client := Some(p.client.value.(pending := None)));
        RepliesAreSilent(taken, p.client.value.pending.value, c);
        SameTold(p, OnPacket(decode, p, packet));
      } else if c.ClientConnected? {
        ConnectedTold(p, c.address, c.client);
      } else if c.ClientDisconnected? {
        DisconnectedTold(p, c.address);
      }
  }

  lemma {:induction false} PacketsTold(decode: Decoder, p: Node, packets: seq<bytes>)
    requires IsTold(p)
    ensures IsTold(OnPackets(decode, p, packets))
  {
    if packets != [] {
      PacketsTold(decode, p, packets[..|packets| - 1]);
      PacketTold(decode, OnPackets(decode, p, packets[..|packets| - 1]), packets[|packets| - 1]);
    }
  }

  lemma JsonTold(decode: Decoder, p: Node, data: bytes)
    requires IsTold(p)
    ensures IsTold(ReceiveJson(decode, p, data))
  {
    if p.client.Some? {
      var r := JsonStream.Ingest(p.client.value.buffer, data);
      PacketsTold(decode, p.(client := Some(p.client.value.(buffer := r.buffer))), r.Packets());
    }
  }

  lemma {:induction false} FramesTold(decode: Decoder, p: Node, frames: seq<SlipDataProcessor.Frame>)
    requires IsTold(p)
    ensures IsTold(DispatchAll(decode, p, frames))
  {
    if frames != [] {
      var q, frame := DispatchAll(decode, p, frames[..|frames| - 1]), frames[|frames| - 1];
      FramesTold(decode, p, frames[..|frames| - 1]);
      JsonTold(decode, q, frame.data);
      if frame.socketAddress != 0 && frame.socketAddress in q.sockets {
        SignalOpens(q.signals, Chunk(frame.socketAddress, frame.data));
        OneMoreSignal(q, Dispatch(decode, q, frame), Chunk(frame.socketAddress, frame.data));
      }
    }
  }

  lemma DataTold(decode: Decoder, p: Peer, data: bytes)
    requires IsTold(p.node)
    ensures IsTold(OnDataAvailable(decode, p, data).node)
  {
    var node := p.node.(keepAliveArmed := true);
    SameTold(p.node, node);
    JsonTold(decode, node, data);
    FramesTold(decode, node, Framing.PeerFrames(Framing.Split(p.buffer + data).pieces));
  }

  lemma StartTold(p: Node, emitted: seq<SocketState>)
    requires Inv(p) && IsTold(p)
    ensures IsTold(StartServer(p, emitted))
  {
    StartAttempts(p, emitted);
    CleanUpEnds(p);
    CleanUpTold(p);
    SameTold(CleanUp(p), StartServer(p, emitted));
  }

  lemma StepTold(decode: Decoder, p: Peer, e: Event)
    requires Inv(p.node) && IsTold(p.node)
    ensures IsTold(Step(decode, p, e).node)
  {
    match e
    case DataAvailable(data) => DataTold(decode, p, data);
    case Start(valid, emitted) => StartTold(p.node, emitted);
    case ReconnectTimeout(emitted) => StartTold(p.node, emitted);
    case ConnectionChanged(connected) =>
      if !connected {
        SetStateKeeps(p.node, StateDisconnected);
        CleanUpTold(SetState(p.node, StateDisconnected));
      }
    case StateChanged(s) => OneSignal(p.node, s);
    case _ =>
  }

  /** Whatever the proxy sends, disciplined or not, and over all event orders: the
      application is never told of data on a socket that is not open, nor of the end of one,
      and the sockets are those that have begun and not ended. */
  lemma {:induction false} NothingOnClosedSockets(decode: Decoder, es: seq<Event>)
    ensures IsTold(Run(decode, es).node)
  {
    if es != [] {
      RunKeeps(decode, es[..|es| - 1]);
      NothingOnClosedSockets(decode, es[..|es| - 1]);
      StepTold(decode, Run(decode, es[..|es| - 1]), es[|es| - 1]);
    }
  }
}
