/** The peer: a tunnel server connected to the proxy, as values and functions on them
    (libnymea-remoteproxyclient/tunnelproxy/tunnelproxysocketserver.cpp with
    libnymea-remoteproxyclient/proxyjsonrpcclient.cpp). */
module SocketServer {
  import opened Bytes
  import opened Sessions
  import opened Messages
  import JsonStream
  import Framing
  import SlipDataProcessor

  datatype State =
    | StateConnecting | StateHostLookup | StateConnected | StateInitializing
    | StateRegister | StateRunning | StateDisconnecting | StateDisconnected

  datatype SocketState =
    | UnconnectedState | HostLookupState | ConnectingState | ConnectedState | ClosingState | BoundState | ListeningState

  /** The request that waits under id 0, the only id the client ever uses. */
  datatype Pending = PendingHello | PendingRegister | PendingOther

  datatype JsonClient = JsonClient(buffer: bytes, pending: Option<Pending>)

  /** Everything but the frame buffer. `sockets` holds the client uuid of each tunnel
      socket; `signals` is everything told to the application so far. */
  datatype Node = Node(
    state: State, running: bool, enabled: bool, reconnectArmed: bool, keepAliveArmed: bool,
    client: Option<JsonClient>, sockets: map<u16, Uuid>, signals: seq<SessionEvent>)

  datatype Peer = Peer(node: Node, buffer: bytes)

  const INIT := Peer(Node(StateDisconnected, false, false, false, false, None, map[], []), [])

  type Decoder = bytes -> Option<Control>

  // ---------------------------------------------------------------- state and timers

  function SetRunning(p: Node, running: bool): Node {
    if p.running == running then p else p.(running := running, keepAliveArmed := running)
  }

  function SetState(p: Node, state: State): Node {
    if p.state == state then p else
      var p1 := SetRunning(p.(state := state), state == StateRunning);
      if state == StateDisconnected && p1.enabled
      then p1.(reconnectArmed := true, keepAliveArmed := false)
      else p1
  }

  function OnConnectionStateChanged(p: Node, s: SocketState): Node {
    match s
    case UnconnectedState => SetState(p, StateDisconnected)
    case HostLookupState => SetState(p, StateHostLookup)
    case ConnectingState => SetState(p, StateConnecting)
    case ConnectedState => SetState(p, StateConnected).(reconnectArmed := false)
    case ClosingState => SetState(p, StateDisconnecting)
    case _ => p
  }

  function OnConnectionStates(p: Node, states: seq<SocketState>): Node {
    if states == [] then p else
      OnConnectionStateChanged(OnConnectionStates(p, states[..|states| - 1]), states[|states| - 1])
  }

  // ---------------------------------------------------------------- tunnel sockets

  function OnClientConnected(p: Node, a: u16, client: Uuid): Node {
    p.(sockets := p.sockets[a := client], signals := p.signals + [Begin(a, client)])
  }

  function OnClientDisconnected(p: Node, a: u16): Node {
    if a in p.sockets then p.(sockets := p.sockets - {a}, signals := p.signals + [End({a})]) else p
  }

  function CleanUp(p: Node): Node {
    var p1 := if p.sockets == map[] then p
              else p.(sockets := map[], signals := p.signals + [End(p.sockets.Keys)]);
    SetState(p1.(client := None), StateDisconnected)
  }

  // ---------------------------------------------------------------- JSON

  function Expect(p: Node, pending: Pending): Node {
    if p.client.Some? then p.(client := Some(p.client.value.(pending := Some(pending)))) else p
  }

  /** A reply has arrived for the request that was waiting. */
  function OnReply(p: Node, pending: Pending, c: Control): Node {
    match pending
    case PendingHello =>
      if c.Response? then Expect(SetState(p, StateRegister), PendingRegister) else p
    case PendingRegister =>
      if c.Response? && c.reply == ServerRegistration(NoError) then SetState(p, StateRunning) else p
    case PendingOther => p
  }

  /** processDataPacket: the lookup of a waiting request comes before the check for a
      notification. */
  function OnPacket(decode: Decoder, p: Node, packet: bytes): Node {
    match decode(packet)
    case None => p
    case Some(c) =>
      if c.id == 0 && p.client.Some? && p.client.value.pending.Some?
      then OnReply(p.(client := Some(p.client.value.(pending := None))), p.client.value.pending.value, c)
      else
        match c
        case ClientConnected(_, _, client, _, a) => OnClientConnected(p, a, client)
        case ClientDisconnected(_, a) => OnClientDisconnected(p, a)
        case _ => p
  }

  function OnPackets(decode: Decoder, p: Node, packets: seq<bytes>): Node {
    if packets == [] then p else
      OnPacket(decode, OnPackets(decode, p, packets[..|packets| - 1]), packets[|packets| - 1])
  }

  function ReceiveJson(decode: Decoder, p: Node, data: bytes): Node {
    if p.client.None? then p else
      var r := JsonStream.Ingest(p.client.value.buffer, data);
      OnPackets(decode, p.(client := Some(p.client.value.(buffer := r.buffer))), r.Packets())
  }

  // ---------------------------------------------------------------- data

  /** Address 0 is for the JSON client; data for an unknown address is ignored. */
  function Dispatch(decode: Decoder, p: Node, frame: SlipDataProcessor.Frame): Node {
    if frame.socketAddress == 0 then ReceiveJson(decode, p, frame.data)
    else if frame.socketAddress in p.sockets
    then p.(signals := p.signals + [Chunk(frame.socketAddress, frame.data)])
    else p
  }

  function DispatchAll(decode: Decoder, p: Node, frames: seq<SlipDataProcessor.Frame>): Node {
    if frames == [] then p else
      Dispatch(decode, DispatchAll(decode, p, frames[..|frames| - 1]), frames[|frames| - 1])
  }

  lemma DispatchOneMore(decode: Decoder, p: Node, frames: seq<SlipDataProcessor.Frame>, frame: SlipDataProcessor.Frame)
    ensures DispatchAll(decode, p, frames + [frame]) == Dispatch(decode, DispatchAll(decode, p, frames), frame)
  {
    assert (frames + [frame])[..|frames|] == frames;
  }

  function OnDataAvailable(decode: Decoder, p: Peer, data: bytes): Peer {
    var node := p.node.(keepAliveArmed := true);
    if node.state != StateRunning then Peer(ReceiveJson(decode, node, data), [])
    else
      var cut := Framing.Split(p.buffer + data);
      Peer(DispatchAll(decode, node, Framing.PeerFrames(cut.pieces)), cut.rest)
  }

  function Feed(decode: Decoder, p: Peer, chunks: seq<bytes>): Peer {
    if chunks == [] then p else
      OnDataAvailable(decode, Feed(decode, p, chunks[..|chunks| - 1]), chunks[|chunks| - 1])
  }

  // ---------------------------------------------------------------- events

  /** `emitted` lists the socket states signalled before connectServer returns. */
  datatype Event =
    | Start(valid: bool, emitted: seq<SocketState>)
    | Stop
    | StateChanged(socketState: SocketState)
    | ConnectionChanged(connected: bool)
    | DataAvailable(data: bytes)
    | ReconnectTimeout(emitted: seq<SocketState>)
    | KeepAliveTimeout
    | RequestDisconnect(address: u16)

  function StartServer(p: Node, emitted: seq<SocketState>): Node {
    OnConnectionStates(CleanUp(p).(client := Some(JsonClient([], None))), emitted).(enabled := true)
  }

  function StopServer(p: Node): Node {
    p.(enabled := false, reconnectArmed := false)
  }

  function OnConnectionChanged(p: Node, connected: bool): Node {
    if connected then Expect(SetState(SetState(p, StateConnected), StateInitializing), PendingHello)
    else CleanUp(SetState(p, StateDisconnected))
  }

  function OnReconnectTimeout(p: Node, emitted: seq<SocketState>): Node {
    if !p.reconnectArmed then p
    else if !p.enabled then p.(reconnectArmed := false)
    else if p.state == StateDisconnected then StartServer(p, emitted)
    else p
  }

  function OnKeepAliveTimeout(p: Node): Node {
    if !p.keepAliveArmed then p
    else if p.state == StateRunning then Expect(p, PendingOther)
    else p.(keepAliveArmed := false)
  }

  function Step(decode: Decoder, p: Peer, e: Event): Peer {
    match e
    case Start(valid, emitted) => if valid then p.(node := StartServer(p.node, emitted)) else p
    case Stop => p.(node := StopServer(p.node))
    case StateChanged(s) => p.(node := OnConnectionStateChanged(p.node, s))
    case ConnectionChanged(connected) => p.(node := OnConnectionChanged(p.node, connected))
    case DataAvailable(data) => OnDataAvailable(decode, p, data)
    case ReconnectTimeout(emitted) => p.(node := OnReconnectTimeout(p.node, emitted))
    case KeepAliveTimeout => p.(node := OnKeepAliveTimeout(p.node))
    case RequestDisconnect(address) => p.(node := Expect(p.node, PendingOther))
  }

  function Run(decode: Decoder, es: seq<Event>): Peer {
    if es == [] then INIT else Step(decode, Run(decode, es[..|es| - 1]), es[|es| - 1])
  }

  // ---------------------------------------------------------------- what every step keeps

  /** `running` says exactly that the state is StateRunning; then the keep-alive timer is
      on, and no reply can change the state. */
  ghost predicate Inv(p: Node) {
    && (p.running <==> p.state == StateRunning)
    && (p.running ==> p.keepAliveArmed && p.client.Some?)
    && (p.running && p.client.value.pending.Some? ==> p.client.value.pending.value == PendingOther)
    && (p.reconnectArmed ==> p.enabled)
  }

  /** As long as the application has been told a disciplined story, the sockets are the
      sessions open in it. */
  ghost predicate Faithful(p: Node) {
    Track(p.signals).Some? ==> Mirrors(p.sockets, Track(p.signals).value)
  }

  ghost predicate Mirrors(sockets: map<u16, Uuid>, board: Board) {
    sockets.Keys == board.Keys && forall a :: a in sockets ==> sockets[a] == board[a].client
  }

  lemma SetStateKeeps(p: Node, state: State)
    requires Inv(p) && (state == StateRunning ==> p.client.Some? && p.client.value.pending.None?)
    ensures Inv(SetState(p, state)) && (Faithful(p) ==> Faithful(SetState(p, state)))
  {
  }

  lemma StateChangeKeeps(p: Node, s: SocketState)
    requires Inv(p)
    ensures Inv(OnConnectionStateChanged(p, s)) && (Faithful(p) ==> Faithful(OnConnectionStateChanged(p, s)))
  {
    SetStateKeeps(p, StateDisconnected);
    SetStateKeeps(p, StateHostLookup);
    SetStateKeeps(p, StateConnecting);
    SetStateKeeps(p, StateConnected);
    SetStateKeeps(p, StateDisconnecting);
  }

  lemma {:induction false} StatesKeep(p: Node, states: seq<SocketState>)
    requires Inv(p)
    ensures Inv(OnConnectionStates(p, states)) && (Faithful(p) ==> Faithful(OnConnectionStates(p, states)))
  {
    if states != [] {
      StatesKeep(p, states[..|states| - 1]);
      StateChangeKeeps(OnConnectionStates(p, states[..|states| - 1]), states[|states| - 1]);
    }
  }

  lemma BeginMirrors(sockets: map<u16, Uuid>, board: Board, a: u16, client: Uuid)
    requires Mirrors(sockets, board)
    ensures Mirrors(sockets[a := client], board[a := Session(client, [])])
    ensures a in board <==> a in sockets
  {
    assert a in sockets.Keys <==> a in board.Keys;
  }

  lemma EndMirrors(sockets: map<u16, Uuid>, board: Board, ended: set<u16>)
    requires Mirrors(sockets, board)
    ensures Mirrors(sockets - ended, board - ended)
    ensures ended <= sockets.Keys <==> ended <= board.Keys
  {
  }

  lemma ConnectedFaithful(p: Node, a: u16, client: Uuid)
    requires Faithful(p)
    ensures Faithful(OnClientConnected(p, a, client))
    ensures Track(p.signals).Some? ==> (Track(OnClientConnected(p, a, client).signals).Some? <==> a !in p.sockets)
  {
    var q := OnClientConnected(p, a, client);
    TrackOneMore(p.signals, Begin(a, client));
    match Track(p.signals)
    case None =>
      assert Track(q.signals) == None;
    case Some(board) =>
      BeginMirrors(p.sockets, board, a, client);
      assert Track(q.signals) == if a in board then None else Some(board[a := Session(client, [])]);
      assert q.sockets == p.sockets[a := client];
  }

  lemma DisconnectedFaithful(p: Node, a: u16)
    requires Faithful(p)
    ensures Faithful(OnClientDisconnected(p, a))
    ensures Track(p.signals).Some? ==> Track(OnClientDisconnected(p, a).signals).Some?
  {
    TrackOneMore(p.signals, End({a}));
    if Track(p.signals).Some? {
      EndMirrors(p.sockets, Track(p.signals).value, {a});
    }
  }

  lemma CleanUpKeeps(p: Node)
    requires Inv(p)
    ensures Inv(CleanUp(p)) && CleanUp(p).sockets == map[]
    ensures Faithful(p) ==> Faithful(CleanUp(p))
    ensures Faithful(p) && Track(p.signals).Some? ==> Track(CleanUp(p).signals).Some?
  {
    CleanUpEnds(p);
    if Faithful(p) && Track(p.signals).Some? && p.sockets != map[] {
      var board := Track(p.signals).value;
      TrackOneMore(p.signals, End(p.sockets.Keys));
      EndMirrors(p.sockets, board, p.sockets.Keys);
      assert p.sockets - p.sockets.Keys == map[];
    }
  }

  lemma CleanUpEnds(p: Node)
    requires Inv(p)
    ensures Inv(CleanUp(p)) && CleanUp(p).sockets == map[]
    ensures CleanUp(p).signals == if p.sockets == map[] then p.signals else p.signals + [End(p.sockets.Keys)]
  {
  }

  lemma ReplyKeeps(p: Node, pending: Pending, c: Control)
    requires Inv(p) && p.client.Some? && p.client.value.pending.None?
    requires p.running ==> pending == PendingOther
    ensures Inv(OnReply(p, pending, c)) && (Faithful(p) ==> Faithful(OnReply(p, pending, c)))
    ensures p.running ==> OnReply(p, pending, c).running
  {
    SetStateKeeps(p, StateRegister);
    SetStateKeeps(p, StateRunning);
  }

  lemma PacketKeeps(decode: Decoder, p: Node, packet: bytes)
    requires Inv(p)
    ensures Inv(OnPacket(decode, p, packet))
    ensures Faithful(p) ==> Faithful(OnPacket(decode, p, packet))
    ensures p.running ==> OnPacket(decode, p, packet).running
  {
    match decode(packet)
    case None =>
    case Some(c) =>
      if c.id == 0 && p.client.Some? && p.client.value.pending.Some? {
        ReplyKeeps(p.(client := Some(p.client.value.(pending := None))), p.client.value.pending.value, c);
      } else if Faithful(p) && c.ClientConnected? {
        ConnectedFaithful(p, c.address, c.client);
      } else if Faithful(p) && c.ClientDisconnected? {
        DisconnectedFaithful(p, c.address);
      }
  }

  lemma {:induction false} PacketsKeep(decode: Decoder, p: Node, packets: seq<bytes>)
    requires Inv(p)
    ensures Inv(OnPackets(decode, p, packets))
    ensures Faithful(p) ==> Faithful(OnPackets(decode, p, packets))
    ensures p.running ==> OnPackets(decode, p, packets).running
  {
    if packets != [] {
      PacketsKeep(decode, p, packets[..|packets| - 1]);
      PacketKeeps(decode, OnPackets(decode, p, packets[..|packets| - 1]), packets[|packets| - 1]);
    }
  }

  lemma JsonKeeps(decode: Decoder, p: Node, data: bytes)
    requires Inv(p)
    ensures Inv(ReceiveJson(decode, p, data))
    ensures Faithful(p) ==> Faithful(ReceiveJson(decode, p, data))
    ensures p.running ==> ReceiveJson(decode, p, data).running
  {
    if p.client.Some? {
      var r := JsonStream.Ingest(p.client.value.buffer, data);
      PacketsKeep(decode, p.(client := Some(p.client.value.(buffer := r.buffer))), r.Packets());
    }
  }

  lemma ChunkFaithful(p: Node, a: u16, data: bytes)
    requires Faithful(p) && a in p.sockets
    ensures Faithful(p.(signals := p.signals + [Chunk(a, data)]))
  {
    TrackOneMore(p.signals, Chunk(a, data));
  }

  lemma DispatchKeeps(decode: Decoder, p: Node, frame: SlipDataProcessor.Frame)
    requires Inv(p)
    ensures Inv(Dispatch(decode, p, frame))
    ensures Faithful(p) ==> Faithful(Dispatch(decode, p, frame))
    ensures p.running ==> Dispatch(decode, p, frame).running
  {
    if frame.socketAddress == 0 {
      JsonKeeps(decode, p, frame.data);
    } else if frame.socketAddress in p.sockets && Faithful(p) {
      ChunkFaithful(p, frame.socketAddress, frame.data);
    }
  }

  lemma {:induction false} DispatchAllKeeps(decode: Decoder, p: Node, frames: seq<SlipDataProcessor.Frame>)
    requires Inv(p)
    ensures Inv(DispatchAll(decode, p, frames))
    ensures Faithful(p) ==> Faithful(DispatchAll(decode, p, frames))
    ensures p.running ==> DispatchAll(decode, p, frames).running
  {
    if frames != [] {
      DispatchAllKeeps(decode, p, frames[..|frames| - 1]);
      DispatchKeeps(decode, DispatchAll(decode, p, frames[..|frames| - 1]), frames[|frames| - 1]);
    }
  }

  lemma StartKeeps(p: Node, emitted: seq<SocketState>)
    requires Inv(p) && Faithful(p)
    ensures Inv(StartServer(p, emitted)) && Faithful(StartServer(p, emitted))
  {
    CleanUpKeeps(p);
    StatesKeep(CleanUp(p).(client := Some(JsonClient([], None))), emitted);
  }

  lemma ConnectionChangeKeeps(p: Node, connected: bool)
    requires Inv(p) && Faithful(p)
    ensures Inv(OnConnectionChanged(p, connected)) && Faithful(OnConnectionChanged(p, connected))
  {
    if connected {
      SetStateKeeps(p, StateConnected);
      SetStateKeeps(SetState(p, StateConnected), StateInitializing);
    } else {
      SetStateKeeps(p, StateDisconnected);
      CleanUpKeeps(SetState(p, StateDisconnected));
    }
  }

  lemma DataKeeps(decode: Decoder, p: Peer, data: bytes)
    requires Inv(p.node)
    ensures Inv(OnDataAvailable(decode, p, data).node)
    ensures Faithful(p.node) ==> Faithful(OnDataAvailable(decode, p, data).node)
    ensures p.node.running ==> OnDataAvailable(decode, p, data).node.running
  {
    var node := p.node.(keepAliveArmed := true);
    JsonKeeps(decode, node, data);
    DispatchAllKeeps(decode, node, Framing.PeerFrames(Framing.Split(p.buffer + data).pieces));
  }

  lemma StepKeeps(decode: Decoder, p: Peer, e: Event)
    requires Inv(p.node) && Faithful(p.node)
    ensures Inv(Step(decode, p, e).node) && Faithful(Step(decode, p, e).node)
  {
    match e
    case Start(valid, emitted) => StartKeeps(p.node, emitted);
    case ReconnectTimeout(emitted) => StartKeeps(p.node, emitted);
    case ConnectionChanged(connected) => ConnectionChangeKeeps(p.node, connected);
    case StateChanged(s) => StateChangeKeeps(p.node, s);
    case DataAvailable(data) => DataKeeps(decode, p, data);
    case _ =>
  }

  lemma {:induction false} RunKeeps(decode: Decoder, es: seq<Event>)
    ensures Inv(Run(decode, es).node) && Faithful(Run(decode, es).node)
  {
    if es != [] {
      RunKeeps(decode, es[..|es| - 1]);
      StepKeeps(decode, Run(decode, es[..|es| - 1]), es[|es| - 1]);
    }
  }

  // ---------------------------------------------------------------- reconnecting

  /** An enabled server that is disconnected will try again. */
  predicate WillReconnect(p: Node) {
    p.enabled && p.state == StateDisconnected ==> p.reconnectArmed
  }

  /** Where the signals of connectServer leave a server that was disconnected. */
  function StateAfter(emitted: seq<SocketState>): State {
    if emitted == [] then StateDisconnected else
      match emitted[|emitted| - 1]
      case UnconnectedState => StateDisconnected
      case HostLookupState => StateHostLookup
      case ConnectingState => StateConnecting
      case ConnectedState => StateConnected
      case ClosingState => StateDisconnecting
      case _ => StateAfter(emitted[..|emitted| - 1])
  }

  lemma {:induction false} StatesLead(p: Node, emitted: seq<SocketState>)
    requires Inv(p) && p.state == StateDisconnected && WillReconnect(p)
    ensures var p' := OnConnectionStates(p, emitted);
            p'.state == StateAfter(emitted) && p'.enabled == p.enabled && WillReconnect(p') && Inv(p')
  {
    if emitted != [] {
      StatesLead(p, emitted[..|emitted| - 1]);
      StateChangeKeeps(OnConnectionStates(p, emitted[..|emitted| - 1]), emitted[|emitted| - 1]);
    }
  }

  /** Starting keeps the promise exactly when the server had been enabled before or
      connectServer does not leave it disconnected: the first start sets `enabled` only
      after the signals of a connection that failed at once have passed. */
  lemma StartReconnectsExactly(p: Node, emitted: seq<SocketState>)
    requires Inv(p) && WillReconnect(p)
    ensures WillReconnect(StartServer(p, emitted)) <==> p.enabled || StateAfter(emitted) != StateDisconnected
  {
    CleanUpKeeps(p);
    var started := CleanUp(p).(client := Some(JsonClient([], None)));
    StatesLead(started, emitted);
    StatesKeep(started, emitted);
  }

  /** A first start whose connection fails before connectServer returns never tries again. */
  lemma FirstStartMayGiveUp()
    ensures var p := StartServer(INIT.node, [ConnectingState, UnconnectedState]);
            p.enabled && p.state == StateDisconnected && !p.reconnectArmed
  {
    StatesLead(INIT.node.(client := Some(JsonClient([], None))), [ConnectingState, UnconnectedState]);
    StartReconnectsExactly(INIT.node, [ConnectingState, UnconnectedState]);
  }

  lemma {:induction false} PacketsStay(decode: Decoder, p: Node, packets: seq<bytes>)
    requires WillReconnect(p)
    ensures WillReconnect(OnPackets(decode, p, packets))
  {
    if packets != [] {
      PacketsStay(decode, p, packets[..|packets| - 1]);
    }
  }

  lemma {:induction false} DispatchAllStays(decode: Decoder, p: Node, frames: seq<SlipDataProcessor.Frame>)
    requires WillReconnect(p)
    ensures WillReconnect(DispatchAll(decode, p, frames))
  {
    if frames != [] {
      var init, frame := DispatchAll(decode, p, frames[..|frames| - 1]), frames[|frames| - 1];
      DispatchAllStays(decode, p, frames[..|frames| - 1]);
      if frame.socketAddress == 0 && init.client.Some? {
        var r := JsonStream.Ingest(init.client.value.buffer, frame.data);
        PacketsStay(decode, init.(client := Some(init.client.value.(buffer := r.buffer))), r.Packets());
      }
    }
  }

  /** Event e does not start a disabled server with a connection that fails at once. */
  predicate StartsWell(p: Node, e: Event) {
    e.Start? && e.valid ==> p.enabled || StateAfter(e.emitted) != StateDisconnected
  }

  lemma StepReconnects(decode: Decoder, p: Peer, e: Event)
    requires Inv(p.node) && WillReconnect(p.node) && StartsWell(p.node, e)
    ensures WillReconnect(Step(decode, p, e).node)
  {
    match e
    case Start(valid, emitted) => StartReconnectsExactly(p.node, emitted);
    case ReconnectTimeout(emitted) => StartReconnectsExactly(p.node, emitted);
    case DataAvailable(data) =>
      var node := p.node.(keepAliveArmed := true);
      if node.client.Some? {
        var r := JsonStream.Ingest(node.client.value.buffer, data);
        PacketsStay(decode, node.(client := Some(node.client.value.(buffer := r.buffer))), r.Packets());
      }
      DispatchAllStays(decode, node, Framing.PeerFrames(Framing.Split(p.buffer + data).pieces));
    case _ =>
  }

  /** Reconnect safety over all event orders. */
  lemma {:induction false} RunReconnects(decode: Decoder, es: seq<Event>)
    requires forall n: nat :: n < |es| ==> StartsWell(Run(decode, es[..n]).node, es[n])
    ensures WillReconnect(Run(decode, es).node)
  {
    if es != [] {
      var n := |es| - 1;
      forall m: nat | m < n ensures StartsWell(Run(decode, es[..n][..m]).node, es[..n][m]) {
        assert es[..n][..m] == es[..m];
      }
      RunReconnects(decode, es[..n]);
      RunKeeps(decode, es[..n]);
      StepReconnects(decode, Run(decode, es[..n]), es[n]);
    }
  }

  // ---------------------------------------------------------------- sockets, exactly once

  /** Every socket announced to the application is either still in the map or has been
      reported disconnected exactly once, provided no address was announced while taken. */
  lemma SocketsEndOnce(decode: Decoder, es: seq<Event>, a: u16)
    requires Track(Run(decode, es).node.signals).Some?
    ensures var p := Run(decode, es).node;
            BeginCount(p.signals, a) == EndCount(p.signals, a) + if a in p.sockets then 1 else 0
  {
    RunKeeps(decode, es);
    EachEndsOnce(Run(decode, es).node.signals, a);
  }

  /** Entering StateRunning leaves the frame buffer empty. */
  lemma RunningStartsWithEmptyBuffer(decode: Decoder, p: Peer, e: Event)
    requires Inv(p.node) && p.node.state != StateRunning && Step(decode, p, e).node.state == StateRunning
    ensures e.DataAvailable? && Step(decode, p, e).buffer == []
  {
    match e
    case Start(valid, emitted) => StartNeverRuns(p.node, emitted);
    case ReconnectTimeout(emitted) => StartNeverRuns(p.node, emitted);
    case _ =>
  }

  lemma StartNeverRuns(p: Node, emitted: seq<SocketState>)
    requires Inv(p)
    ensures StartServer(p, emitted).state != StateRunning
  {
    var started := CleanUp(p).(client := Some(JsonClient([], None)));
    StatesNeverRun(started, emitted);
  }

  lemma {:induction false} StatesNeverRun(p: Node, states: seq<SocketState>)
    requires p.state != StateRunning
    ensures OnConnectionStates(p, states).state != StateRunning
  {
    if states != [] {
      StatesNeverRun(p, states[..|states| - 1]);
    }
  }
}
