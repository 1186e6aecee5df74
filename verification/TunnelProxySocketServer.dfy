/** The peer itself, changed in place
    (libnymea-remoteproxyclient/tunnelproxy/tunnelproxysocketserver.cpp with
    libnymea-remoteproxyclient/proxyjsonrpcclient.cpp). Every operation does to Value()
    exactly what SocketServer says. */
module TunnelProxySocketServer {
  import opened Bytes
  import opened Sessions
  import opened Messages
  import opened SocketServer
  import JsonStream
  import Framing
  import SlipDataProcessor
  import PeerLifecycle

  class JsonRpcClient {
    var dataBuffer: bytes
    var pending: Option<Pending>

    ghost function Value(): JsonClient
      reads this
    {
      JsonClient(dataBuffer, pending)
    }

    constructor ()
      ensures Value() == JsonClient([], None)
    {
      dataBuffer, pending := [], None;
    }

    /** A request goes out, always under id 0, and its reply is waited for. */
    method Call(pending: Pending)
      modifies this`pending
      ensures this.pending == Some(pending)
    {
      this.pending := Some(pending);
    }
  }

  /** What the application is handed for one client. */
  class TunnelProxySocket {
    const socketAddress: u16
    const clientUuid: Uuid

    constructor (socketAddress: u16, clientUuid: Uuid)
      ensures this.socketAddress == socketAddress && this.clientUuid == clientUuid
    {
      this.socketAddress := socketAddress;
      this.clientUuid := clientUuid;
    }
  }

  class TunnelProxySocketServer {
    const decode: Decoder
    var state: State
    var running: bool
    var enabled: bool
    var reconnectTimerActive: bool
    var keepAliveTimerActive: bool
    var jsonClient: JsonRpcClient?
    var tunnelProxySockets: map<u16, TunnelProxySocket>
    var dataBuffer: bytes
    ghost var signals: seq<SessionEvent>

    ghost function Sockets(): map<u16, Uuid>
      reads this`tunnelProxySockets
    {
      map a | a in tunnelProxySockets :: tunnelProxySockets[a].clientUuid
    }

    ghost function Node(): Node
      reads this`state, this`running, this`enabled, this`reconnectTimerActive, this`keepAliveTimerActive,
        this`jsonClient, this`tunnelProxySockets, this`signals, jsonClient
    {
      SocketServer.Node(state, running, enabled, reconnectTimerActive, keepAliveTimerActive,
                        if jsonClient == null then None else Some(jsonClient.Value()), Sockets(), signals)
    }

    ghost function Value(): Peer
      reads this, jsonClient
    {
      Peer(Node(), dataBuffer)
    }

    /** No END ever stays in the buffer. */
    ghost predicate Valid()
      reads this`dataBuffer
    {
      SlipDataProcessor.EndFree(dataBuffer)
    }

    constructor (decode: Decoder)
      ensures Valid() && Value() == INIT && this.decode == decode && jsonClient == null
    {
      this.decode := decode;
      state, running, enabled := StateDisconnected, false, false;
      reconnectTimerActive, keepAliveTimerActive := false, false;
      jsonClient, tunnelProxySockets, dataBuffer := null, map[], [];
      signals := [];
    }

    // -------------------------------------------------------------- state and timers

    method SetRunning(running: bool)
      modifies this`running, this`keepAliveTimerActive
      ensures Node() == SocketServer.SetRunning(old(Node()), running)
    {
      if this.running == running {
        return;
      }
      this.running := running;
      if running {
        keepAliveTimerActive := true;
      } else {
        keepAliveTimerActive := false;
      }
    }

    method SetState(state: State)
      modifies this`state, this`running, this`keepAliveTimerActive, this`reconnectTimerActive
      ensures Node() == SocketServer.SetState(old(Node()), state)
    {
      if this.state == state {
        return;
      }
      this.state := state;
      SetRunning(state == StateRunning);
      if state == StateDisconnected && enabled {
        reconnectTimerActive := true;
        keepAliveTimerActive := false;
      }
    }

    method OnConnectionStateChanged(s: SocketState)
      modifies this`state, this`running, this`keepAliveTimerActive, this`reconnectTimerActive
      ensures Node() == SocketServer.OnConnectionStateChanged(old(Node()), s)
    {
      match s
      case UnconnectedState => SetState(StateDisconnected);
      case HostLookupState => SetState(StateHostLookup);
      case ConnectingState => SetState(StateConnecting);
      case ConnectedState =>
        SetState(StateConnected);
        reconnectTimerActive := false;
      case ClosingState => SetState(StateDisconnecting);
      case _ =>
    }

    /** The states signalled before connectServer returns. */
    method OnConnectionStates(states: seq<SocketState>)
      modifies this`state, this`running, this`keepAliveTimerActive, this`reconnectTimerActive
      ensures Node() == SocketServer.OnConnectionStates(old(Node()), states)
    {
      for i := 0 to |states|
        invariant Node() == SocketServer.OnConnectionStates(old(Node()), states[..i])
      {
        assert states[..i + 1][..i] == states[..i];
        OnConnectionStateChanged(states[i]);
      }
      assert states[..|states|] == states;
    }

    // -------------------------------------------------------------- tunnel sockets

    method OnTunnelProxyClientConnected(clientUuid: Uuid, socketAddress: u16)
      modifies this`tunnelProxySockets, this`signals
      ensures Node() == OnClientConnected(old(Node()), socketAddress, clientUuid)
    {
      var socket := new TunnelProxySocket(socketAddress, clientUuid);
      tunnelProxySockets := tunnelProxySockets[socketAddress := socket];
      signals := signals + [Begin(socketAddress, clientUuid)];
      assert Sockets() == old(Sockets())[socketAddress := clientUuid];
    }

    method OnTunnelProxyClientDisconnected(socketAddress: u16)
      modifies this`tunnelProxySockets, this`signals
      ensures Node() == OnClientDisconnected(old(Node()), socketAddress)
    {
      if socketAddress !in tunnelProxySockets {
        return;
      }
      tunnelProxySockets := tunnelProxySockets - {socketAddress};
      signals := signals + [End({socketAddress})];
      assert Sockets() == old(Sockets()) - {socketAddress};
    }

    /** Every socket is disconnected, one after the other, in no particular order. */
    method DisconnectSockets()
      modifies this`tunnelProxySockets, this`signals
      ensures Sockets() == map[]
      ensures signals == if old(Sockets()) == map[] then old(signals) else old(signals) + [End(old(Sockets()).Keys)]
    {
      var addresses := tunnelProxySockets.Keys;
      ghost var ended: set<u16> := {};
      while addresses != {}
        invariant addresses == tunnelProxySockets.Keys && signals == old(signals)
        invariant ended + addresses == old(tunnelProxySockets.Keys) && ended !! addresses
      {
        var socketAddress :| socketAddress in addresses;
        tunnelProxySockets := tunnelProxySockets - {socketAddress};
        ended := ended + {socketAddress};
        addresses := addresses - {socketAddress};
      }
      assert old(Sockets()).Keys == old(tunnelProxySockets.Keys) == ended;
      if ended != {} {
        signals := signals + [End(ended)];
      }
      assert Sockets().Keys == {};
    }

    method CleanUp()
      modifies this
      ensures Node() == SocketServer.CleanUp(old(Node())) && unchanged(this`dataBuffer, this`enabled)
      ensures jsonClient == null
    {
      DisconnectSockets();
      jsonClient := null;
      SetState(StateDisconnected);
    }

    // -------------------------------------------------------------- JSON

    method OnReply(pending: Pending, c: Control)
      requires jsonClient != null
      modifies this`state, this`running, this`keepAliveTimerActive, this`reconnectTimerActive, jsonClient`pending
      ensures Node() == SocketServer.OnReply(old(Node()), pending, c)
      ensures pending == PendingHello ==>
                if c.Response? then state == StateRegister && jsonClient.pending == Some(PendingRegister)
                else Node() == old(Node())
      ensures pending == PendingRegister ==>
                if c == Response(c.id, ServerRegistration(NoError)) then state == StateRunning
                    else Node() == old(Node())
      ensures pending == PendingOther ==> Node() == old(Node())
    {
      match pending
      case PendingHello =>
        if c.Response? {
          SetState(StateRegister);
          jsonClient.Call(PendingRegister);
        }
      case PendingRegister =>
        if c.Response? && c.reply == ServerRegistration(NoError) {
          SetState(StateRunning);
        }
      case PendingOther =>
    }

    /** What a packet may change. The JSON client stays the same object. */
    method ProcessDataPacket(packet: bytes)
      requires jsonClient != null
      modifies this`state, this`running, this`keepAliveTimerActive, this`reconnectTimerActive
      modifies this`tunnelProxySockets, this`signals
      modifies jsonClient`pending
      ensures Node() == OnPacket(decode, old(Node()), packet)
    {
      var control := decode(packet);
      if control.None? {
        return;
      }
      var c := control.value;
      if c.id == 0 && jsonClient.pending.Some? {
        var pending := jsonClient.pending.value;
        jsonClient.pending := None;
        OnReply(pending, c);
        return;
      }
      match c
      case ClientConnected(_, _, client, _, a) => OnTunnelProxyClientConnected(client, a);
      case ClientDisconnected(_, a) => OnTunnelProxyClientDisconnected(a);
      case _ =>
    }

    /** A packet is handled, and `rest` stays in the buffer. */
    method HandlePacket(packet: bytes, rest: bytes, ghost p: Node, ghost done: seq<bytes>)
      requires jsonClient != null && Node() == OnPackets(decode, WithJsonBuffer(p, jsonClient.dataBuffer), done)
      modifies this`state, this`running, this`keepAliveTimerActive, this`reconnectTimerActive
      modifies this`tunnelProxySockets, this`signals
      modifies jsonClient
      ensures Node() == OnPackets(decode, WithJsonBuffer(p, rest), done + [packet]) && jsonClient.dataBuffer == rest
    {
      ghost var buffer := jsonClient.dataBuffer;
      ProcessDataPacket(packet);
      PacketHandled(decode, p, buffer, done, packet, rest);
      jsonClient.dataBuffer := rest;
    }

    /** JsonRpcClient::processData: every packet is handled as soon as it is cut off. */
    method ProcessJsonData(data: bytes)
      modifies this`state, this`running, this`keepAliveTimerActive, this`reconnectTimerActive
      modifies this`tunnelProxySockets, this`signals
      modifies jsonClient
      ensures Node() == ReceiveJson(decode, old(Node()), data)
    {
      if jsonClient == null {
        return;
      }
      ghost var p, buffer := Node(), jsonClient.dataBuffer;
      jsonClient.dataBuffer := jsonClient.dataBuffer + data;
      ghost var done := ProcessSplits(p);
      JsonStream.CutSplitsHasNoLast(buffer + data);
      if JsonStream.EndsPacket(jsonClient.dataBuffer) {
        HandlePacket(jsonClient.dataBuffer, [], p, done);
      }
      assert done + [] == done;
    }

    /** The loop over the splits. */
    method ProcessSplits(ghost p: Node) returns (ghost done: seq<bytes>)
      requires jsonClient != null && Node() == WithJsonBuffer(p, jsonClient.dataBuffer)
      modifies this`state, this`running, this`keepAliveTimerActive, this`reconnectTimerActive
      modifies this`tunnelProxySockets, this`signals
      modifies jsonClient
      ensures Node() == OnPackets(decode, WithJsonBuffer(p, jsonClient.dataBuffer), done)
      ensures var r := JsonStream.CutSplits(old(jsonClient.dataBuffer));
              done == r.cut && jsonClient.dataBuffer == r.buffer
    {
      ghost var text := jsonClient.dataBuffer;
      done := [];
      var splitIndex := JsonStream.IndexOfSplit(jsonClient.dataBuffer);
      while splitIndex > -1
        invariant splitIndex == JsonStream.IndexOfSplit(jsonClient.dataBuffer)
        invariant done + JsonStream.CutSplits(jsonClient.dataBuffer).cut == JsonStream.CutSplits(text).cut
        invariant JsonStream.CutSplits(jsonClient.dataBuffer).buffer == JsonStream.CutSplits(text).buffer
        invariant Node() == OnPackets(decode, WithJsonBuffer(p, jsonClient.dataBuffer), done)
        decreases |jsonClient.dataBuffer|
      {
        var packet, rest := jsonClient.dataBuffer[..splitIndex + 1], jsonClient.dataBuffer[splitIndex + 2..];
        JsonStream.CutOne(jsonClient.dataBuffer, done);
        HandlePacket(packet, rest, p, done);
        done := done + [packet];
        splitIndex := JsonStream.IndexOfSplit(jsonClient.dataBuffer);
      }
    }

    // -------------------------------------------------------------- data

    /** One frame from the proxy: for the JSON client, or for a socket. */
    method DispatchFrame(frame: SlipDataProcessor.Frame)
      modifies this`state, this`running, this`keepAliveTimerActive, this`reconnectTimerActive
      modifies this`tunnelProxySockets, this`signals
      modifies jsonClient
      ensures Node() == Dispatch(decode, old(Node()), frame)
    {
      if frame.socketAddress == 0x0000 {
        ProcessJsonData(frame.data);
      } else if frame.socketAddress in tunnelProxySockets {
        assert frame.socketAddress in Sockets();
        signals := signals + [Chunk(frame.socketAddress, frame.data)];
      } else {
        assert frame.socketAddress !in Sockets();
      }
    }

    /** From p on, all of `stream` has been read. */
    ghost predicate HasRead(p: Node, stream: bytes)
      reads this, jsonClient
    {
      && Framing.Split(stream).rest == dataBuffer
      && Node() == DispatchAll(decode, p, Framing.PeerFrames(Framing.Split(stream).pieces))
    }

    /** The piece in the buffer is unescaped, parsed and dispatched, if it can be. */
    method OnPiece(ghost p: Node, ghost pieces: seq<bytes>)
      requires Node() == DispatchAll(decode, p, Framing.PeerFrames(pieces))
      modifies this`state, this`running, this`keepAliveTimerActive, this`reconnectTimerActive
      modifies this`tunnelProxySockets, this`signals
      modifies jsonClient
      ensures Node() == DispatchAll(decode, p, Framing.PeerFrames(pieces + [dataBuffer]))
    {
      PeerFramesOneMore(pieces, dataBuffer);
      if dataBuffer == [] {
        return;
      }
      var frameData := SlipDataProcessor.DeserializeData(dataBuffer);
      if frameData.Some? {
        var frame := SlipDataProcessor.ParseFrame(frameData.value);
        DispatchFrame(frame);
        DispatchOneMore(decode, p, Framing.PeerFrames(pieces), frame);
      }
    }

    /** One byte: an END ends the piece collected so far. */
    method ReadByte(b: byte, ghost p: Node, ghost stream: bytes)
      requires Valid() && HasRead(p, stream)
      modifies this, jsonClient
      ensures Valid() && unchanged(this`jsonClient) && HasRead(p, stream + [b])
    {
      ghost var cut, piece := Framing.Split(stream), dataBuffer;
      Framing.SplitOneMore(stream, b);
      if b == SlipDataProcessor.END {
        OnPiece(p, cut.pieces);
        dataBuffer := [];
        assert Framing.Split(stream + [b]) == Framing.Cut(cut.pieces + [piece], []);
      } else {
        dataBuffer := dataBuffer + [b];
        assert Framing.Split(stream + [b]) == Framing.Cut(cut.pieces, piece + [b]);
      }
    }

    /** The byte loop. */
    method ReadFrames(data: bytes)
      requires Valid()
      modifies this, jsonClient
      ensures Valid() && unchanged(this`jsonClient) && HasRead(old(Node()), old(dataBuffer) + data)
    {
      ghost var p, stream := Node(), dataBuffer;
      ghost var read := stream;
      NothingRead(dataBuffer);
      for i := 0 to |data|
        invariant Valid() && unchanged(this`jsonClient) && HasRead(p, read)
        invariant read == stream + data[..i]
      {
        ReadByte(data[i], p, read);
        read := read + [data[i]];
      }
      assert data[..|data|] == data;
    }

    method OnConnectionDataAvailable(data: bytes)
      requires Valid()
      modifies this, jsonClient
      ensures Valid() && unchanged(this`jsonClient) && Value() == OnDataAvailable(decode, old(Value()), data)
    {
      keepAliveTimerActive := true;
      if state != StateRunning {
        ProcessJsonData(data);
        dataBuffer := [];
        return;
      }
      ReadFrames(data);
    }

    // -------------------------------------------------------------- starting and stopping

    method StartServer(valid: bool, emitted: seq<SocketState>) returns (started: bool)
      requires Valid()
      modifies this
      ensures Valid() && (jsonClient == old(jsonClient) || fresh(jsonClient))
      ensures started == valid && Value() == Step(decode, old(Value()), Start(valid, emitted))
    {
      if !valid {
        return false;
      }
      CleanUp();
      jsonClient := new JsonRpcClient();
      OnConnectionStates(emitted);
      enabled := true;
      return true;
    }

    method StopServer()
      modifies this`enabled, this`reconnectTimerActive
      ensures Value() == Step(decode, old(Value()), Stop)
    {
      enabled := false;
      reconnectTimerActive := false;
    }

    method OnConnectionChanged(connected: bool)
      requires Valid()
      modifies this, jsonClient
      ensures Valid() && (jsonClient == old(jsonClient) || jsonClient == null)
      ensures Value() == Step(decode, old(Value()), ConnectionChanged(connected))
    {
      if connected {
        SetState(StateConnected);
        SetState(StateInitializing);
        if jsonClient != null {
          jsonClient.Call(PendingHello);
        }
      } else {
        SetState(StateDisconnected);
        CleanUp();
      }
    }

    method OnReconnectTimeout(emitted: seq<SocketState>)
      requires Valid()
      modifies this
      ensures Valid() && (jsonClient == old(jsonClient) || fresh(jsonClient))
      ensures Value() == Step(decode, old(Value()), ReconnectTimeout(emitted))
      ensures Inv(old(Node())) && old(reconnectTimerActive && state == StateDisconnected) ==>
                PeerLifecycle.Attempted(old(Node()), Node(), emitted)
    {
      ghost var p := Value();
      if Inv(p.node) {
        PeerLifecycle.ReconnectTimeoutExactly(decode, p, emitted);
      }
      if !reconnectTimerActive {
        return;
      }
      if !enabled {
        reconnectTimerActive := false;
        return;
      }
      if state == StateDisconnected {
        var started := StartServer(true, emitted);
      }
    }

    method OnKeepAliveTimeout()
      modifies this`keepAliveTimerActive, jsonClient
      ensures Value() == Step(decode, old(Value()), KeepAliveTimeout)
    {
      if !keepAliveTimerActive {
        return;
      }
      if state == StateRunning {
        if jsonClient != null {
          jsonClient.Call(PendingOther);
        }
      } else {
        keepAliveTimerActive := false;
      }
    }

    method RequestSocketDisconnect(socketAddress: u16)
      modifies jsonClient
      ensures Value() == Step(decode, old(Value()), RequestDisconnect(socketAddress))
    {
      if jsonClient != null {
        jsonClient.Call(PendingOther);
      }
    }

    method HandleEvent(e: Event)
      requires Valid()
      modifies this, jsonClient
      ensures Valid() && (jsonClient == old(jsonClient) || jsonClient == null || fresh(jsonClient))
      ensures Value() == Step(decode, old(Value()), e)
    {
      match e
      case Start(valid, emitted) =>
        var started := StartServer(valid, emitted);
      case Stop => StopServer();
      case StateChanged(s) => OnConnectionStateChanged(s);
      case ConnectionChanged(connected) => OnConnectionChanged(connected);
      case DataAvailable(data) => OnConnectionDataAvailable(data);
      case ReconnectTimeout(emitted) => OnReconnectTimeout(emitted);
      case KeepAliveTimeout => OnKeepAliveTimeout();
      case RequestDisconnect(address) => RequestSocketDisconnect(address);
    }
  }

  /** The peer's life: the object goes through exactly the runs of SocketServer, and so
      keeps everything proved of these. */
  method EventLoop(decode: Decoder, es: seq<Event>) returns (server: TunnelProxySocketServer)
    ensures server.Valid() && server.Value() == Run(decode, es)
    ensures Inv(server.Node()) && Faithful(server.Node())
  {
    server := new TunnelProxySocketServer(decode);
    for i := 0 to |es|
      invariant server.Valid() && server.Value() == Run(decode, es[..i]) && server.decode == decode
      invariant fresh(server) && (server.jsonClient == null || fresh(server.jsonClient))
    {
      assert es[..i + 1][..i] == es[..i];
      server.HandleEvent(es[i]);
    }
    assert es[..|es|] == es;
    RunKeeps(decode, es);
  }

  lemma NothingRead(buffer: bytes)
    requires SlipDataProcessor.EndFree(buffer)
    ensures Framing.Split(buffer) == Framing.Cut([], buffer)
  {
    Framing.SplitUnique([], buffer);
    assert Framing.Join([]) + buffer == buffer;
  }

  lemma PeerFramesOneMore(pieces: seq<bytes>, piece: bytes)
    ensures Framing.PeerFrames(pieces + [piece]) ==
            match SlipDataProcessor.Deserialized(piece)
            case None => Framing.PeerFrames(pieces)
            case Some(body) => Framing.PeerFrames(pieces) + [SlipDataProcessor.Parsed(body)]
  {
    assert (pieces + [piece])[..|pieces|] == pieces;
    assert Framing.PeerFrames(pieces) + [] == Framing.PeerFrames(pieces);
  }

  // ---------------------------------------------------------------- the buffer of the JSON client

  function WithJsonBuffer(p: Node, buffer: bytes): Node {
    if p.client.None? then p else p.(client := Some(p.client.value.(buffer := buffer)))
  }

  lemma PacketsOneMore(decode: Decoder, p: Node, packets: seq<bytes>, packet: bytes)
    ensures OnPackets(decode, p, packets + [packet]) == OnPacket(decode, OnPackets(decode, p, packets), packet)
  {
    assert (packets + [packet])[..|packets|] == packets;
  }

  lemma RunningIgnoresBuffer(p: Node, running: bool, buffer: bytes)
    ensures SetRunning(WithJsonBuffer(p, buffer), running) == WithJsonBuffer(SetRunning(p, running), buffer)
  {
  }

  lemma StateIgnoresBuffer(p: Node, state: State, buffer: bytes)
    ensures SetState(WithJsonBuffer(p, buffer), state) == WithJsonBuffer(SetState(p, state), buffer)
  {
    if p.state != state {
      RunningIgnoresBuffer(p.(state := state), state == StateRunning, buffer);
    }
  }

  lemma ReplyIgnoresBuffer(p: Node, pending: Pending, c: Control, buffer: bytes)
    ensures OnReply(WithJsonBuffer(p, buffer), pending, c) == WithJsonBuffer(OnReply(p, pending, c), buffer)
  {
    StateIgnoresBuffer(p, StateRegister, buffer);
    StateIgnoresBuffer(p, StateRunning, buffer);
  }

  lemma PacketIgnoresBuffer(decode: Decoder, p: Node, packet: bytes, buffer: bytes)
    ensures OnPacket(decode, WithJsonBuffer(p, buffer), packet) == WithJsonBuffer(OnPacket(decode, p, packet), buffer)
  {
    match decode(packet)
    case None =>
    case Some(c) =>
      if c.id == 0 && p.client.Some? && p.client.value.pending.Some? {
        var taken := p.(client := Some(p.client.value.(pending := None)));
        ReplyIgnoresBuffer(taken, p.client.value.pending.value, c, buffer);
      }
  }

  /** Handling packets neither reads nor writes what is still to be cut. */
  lemma {:induction false} PacketsIgnoreBuffer(decode: Decoder, p: Node, packets: seq<bytes>, buffer: bytes)
    ensures OnPackets(decode, WithJsonBuffer(p, buffer), packets)
            == WithJsonBuffer(OnPackets(decode, p, packets), buffer)
  {
    if packets != [] {
      PacketsIgnoreBuffer(decode, p, packets[..|packets| - 1], buffer);
      PacketIgnoresBuffer(decode, OnPackets(decode, p, packets[..|packets| - 1]), packets[|packets| - 1], buffer);
    }
  }

  lemma PacketHandled(decode: Decoder, p: Node, buffer: bytes, done: seq<bytes>, packet: bytes, rest: bytes)
    ensures WithJsonBuffer(OnPacket(decode, OnPackets(decode, WithJsonBuffer(p, buffer), done), packet), rest)
            == OnPackets(decode, WithJsonBuffer(p, rest), done + [packet])
  {
    PacketsOneMore(decode, WithJsonBuffer(p, buffer), done, packet);
    PacketsIgnoreBuffer(decode, WithJsonBuffer(p, buffer), done + [packet], rest);
    assert WithJsonBuffer(WithJsonBuffer(p, buffer), rest) == WithJsonBuffer(p, rest);
  }
}
