/** The proxy's tables as values, and every step of the proxy as a function on them
    (libnymea-remoteproxy/tunnelproxy/tunnelproxyserver.cpp with
    libnymea-remoteproxy/server/jsonrpcserver.cpp). TunnelProxyServer refines this. */
module Registry {
  import opened Bytes
  import opened Messages
  import opened AddressAllocator
  import JsonStream
  import Framing
  import SlipDataProcessor

  /** The id of a transport connection. */
  type ClientId = nat

  const MAX_BUFFER: nat := 10240

  datatype Kind = TypeNone | TypeServer | TypeClient

  /** A socket that connected; `listed` holds while m_proxyClients has it. */
  datatype Transport = Transport(
    peer: string, kind: Kind, uuid: Uuid, name: string, slipAfter: bool, slip: bool,
    killRequested: bool, buffer: bytes, listed: bool)

  datatype ServerConnection = ServerConnection(
    transport: ClientId, counter: u16, byUuid: set<Uuid>, byAddress: map<u16, Uuid>)

  /** `fed` is the history of chunks this client has handed over since it registered. */
  datatype ClientConnection = ClientConnection(
    transport: ClientId, server: Option<Uuid>, address: u16, fed: seq<bytes>)

  /** What the proxy's sockets see, in order. Kills issued together, in an order the code
      leaves open, share one entry. */
  datatype Entry =
    | Opened(id: ClientId)
    | Closed(id: ClientId)
    | Sent(to: ClientId, message: Message)
    | Killed(ids: set<ClientId>)
    | Published(value: nat)

  datatype State = State(
    transports: map<ClientId, Transport>,
    jsonClients: set<ClientId>,
    servers: map<Uuid, ServerConnection>,
    clients: map<Uuid, ClientConnection>,
    troughput: nat,
    troughputCounter: nat,
    notificationId: nat,
    log: seq<Entry>)

  const INIT := State(map[], {}, map[], map[], 0, 0, 0, [])

  predicate Listed(r: State, id: ClientId) {
    id in r.transports && r.transports[id].listed
  }

  /** Pointers in the tables never dangle (see Tables and Links); 0 stands in where the
      types cannot say so. */
  function ClientTransport(r: State, client: Uuid): ClientId {
    if client in r.clients then r.clients[client].transport else 0
  }

  // ---------------------------------------------------------------- small changes

  function Append(r: State, e: Entry): State {
    r.(log := r.log + [e])
  }

  function WithTransport(r: State, id: ClientId, t: Transport): State {
    r.(transports := r.transports[id := t])
  }

  /** sendResponse, sendErrorResponse and sendNotification: framed once SLIP is on. */
  function Letter(r: State, to: ClientId, c: Control): Entry {
    Sent(to, if to in r.transports && r.transports[to].slip then Framed(c) else Plain(c))
  }

  function Send(r: State, to: ClientId, c: Control): State {
    Append(r, Letter(r, to, c))
  }

  function Kill(r: State, id: ClientId): State {
    Append(r, Killed({id}))
  }

  function KillAfterResponse(r: State, id: ClientId): State
    requires id in r.transports
  {
    WithTransport(r, id, r.transports[id].(killRequested := true))
  }

  // ---------------------------------------------------------------- remote procedures

  function AddServer(r: State, id: ClientId, serverUuid: Uuid, serverName: string): State
    requires id in r.transports
  {
    var t := r.transports[id].(kind := TypeServer, uuid := serverUuid, name := serverName, slipAfter := true);
    WithTransport(r, id, t).(servers := r.servers[serverUuid := ServerConnection(id, 0, {}, map[])])
  }

  function CallRegisterServer(r: State, id: ClientId, serverUuid: Uuid, serverName: string): (State, ProxyError) {
    if !Listed(r, id) then (r, InternalServerError)
    else if r.transports[id].kind != TypeNone then (KillAfterResponse(r, id), AlreadyRegistered)
    else if serverUuid in r.servers then (KillAfterResponse(r, id), AlreadyRegistered)
    else if serverUuid in r.clients then (KillAfterResponse(r, id), AlreadyRegistered)
    else (AddServer(r, id, serverUuid, serverName), NoError)
  }

  /** registerClientConnection. */
  function Attach(s: ServerConnection, clientUuid: Uuid): ServerConnection {
    s.(counter := Wrap(s.counter as nat + 1),
       byUuid := s.byUuid + {clientUuid},
       byAddress := s.byAddress[NextAddress(s.byAddress.Keys, s.counter) := clientUuid])
  }

  /** unregisterClientConnection. */
  function Detach(s: ServerConnection, clientUuid: Uuid, address: u16): ServerConnection {
    s.(byUuid := s.byUuid - {clientUuid}, byAddress := s.byAddress - {address})
  }

  function AddClient(r: State, id: ClientId, clientUuid: Uuid, clientName: string, serverUuid: Uuid): State
    requires id in r.transports && serverUuid in r.servers
  {
    var s := r.servers[serverUuid];
    var a := NextAddress(s.byAddress.Keys, s.counter);
    var t := r.transports[id].(kind := TypeClient, uuid := clientUuid, name := clientName);
    var r1 := WithTransport(r, id, t).(
              servers := r.servers[serverUuid := Attach(s, clientUuid)],
              clients := r.clients[clientUuid := ClientConnection(id, Some(serverUuid), a, [])],
              notificationId := r.notificationId + 1);
    Send(r1, s.transport, ClientConnected(r.notificationId, clientName, clientUuid, t.peer, a))
  }

  function CallRegisterClient(r: State, id: ClientId, clientUuid: Uuid, clientName: string,
                              serverUuid: Uuid): (State, ProxyError) {
    if !Listed(r, id) then (r, InternalServerError)
    else if r.transports[id].kind != TypeNone then (KillAfterResponse(r, id), AlreadyRegistered)
    else if clientUuid in r.clients then (KillAfterResponse(r, id), AlreadyRegistered)
    else if clientUuid in r.servers then (KillAfterResponse(r, id), AlreadyRegistered)
    else if serverUuid !in r.servers then (KillAfterResponse(r, id), ServerNotFound)
    else (AddClient(r, id, clientUuid, clientName, serverUuid), NoError)
  }

  function CallDisconnectClient(r: State, id: ClientId, address: u16): (State, ProxyError) {
    if !Listed(r, id) then (r, InternalServerError)
    else
      var t := r.transports[id];
      if t.kind != TypeServer then (KillAfterResponse(r, id), AlreadyRegistered)
      else if t.uuid !in r.servers then (KillAfterResponse(r, id), InternalServerError)
      else
        var s := r.servers[t.uuid];
        if address !in s.byAddress then (r, UnknownSocketAddress)
        else (Kill(r, ClientTransport(r, s.byAddress[address])), NoError)
  }

  function Invoke(r: State, id: ClientId, p: Procedure): (State, Reply) {
    match p
    case Hello => (r, Description)
    case Introspect => (r, Description)
    case Ping(timestamp) => (r, Pong(timestamp))
    case RegisterServer(serverUuid, serverName) =>
      if serverUuid == NULL_UUID then (r, ServerRegistration(InvalidUuid)) else
        var (r', e) := CallRegisterServer(r, id, serverUuid, serverName);
        (r', ServerRegistration(e))
    case RegisterClient(clientUuid, clientName, serverUuid) =>
      if serverUuid == NULL_UUID || clientUuid == NULL_UUID then (r, ClientRegistration(InvalidUuid)) else
        var (r', e) := CallRegisterClient(r, id, clientUuid, clientName, serverUuid);
        (r', ClientRegistration(e))
    case DisconnectClient(address) =>
      var (r', e) := CallDisconnectClient(r, id, address);
      (r', Disconnection(e))
  }

  /** After the response: the requested kill, or else SLIP from now on. */
  function AfterResponse(r: State, id: ClientId): State {
    if id !in r.transports then r else
      var t := r.transports[id];
      if t.killRequested then Kill(r, id)
      else if t.slipAfter then WithTransport(r, id, t.(slip := true))
      else r
  }

  /** processDataPacket, with `read` standing for the JSON parser and the validation. */
  function HandlePacket(read: bytes -> Request, r: State, id: ClientId, packet: bytes): State {
    match read(packet)
    case Unusable(n) => Kill(Send(r, id, ErrorResponse(n)), id)
    case Call(n, p) =>
      var (r1, reply) := Invoke(r, id, p);
      AfterResponse(Send(r1, id, Response(n, reply)), id)
  }

  // ---------------------------------------------------------------- tunnelling

  /** A chunk from a client connection that is attached to a server. */
  function TunnelChunk(r: State, client: Uuid, serverUuid: Uuid, data: bytes): State
    requires client in r.clients && serverUuid in r.servers
  {
    var c := r.clients[client];
    Append(r, Sent(r.servers[serverUuid].transport, Tunnel(c.address, data)))
      .(troughputCounter := r.troughputCounter + |data|,
        clients := r.clients[client := c.(fed := c.fed + [data])])
  }

  function ForwardPayload(r: State, client: Uuid, data: bytes): State {
    Append(r, Sent(ClientTransport(r, client), Forward(data)))
      .(troughputCounter := r.troughputCounter + |data|)
  }

  /** A frame that is for a client of the server on transport id. */
  function RouteFrame(r: State, id: ClientId, frame: SlipDataProcessor.Frame): State {
    if id !in r.transports || r.transports[id].uuid !in r.servers then r
    else
      var s := r.servers[r.transports[id].uuid];
      if frame.socketAddress !in s.byAddress then r
      else ForwardPayload(r, s.byAddress[frame.socketAddress], frame.data)
  }

  /** One frame from a server's transport: address 0 is for the JSON server. */
  function HandleFrame(read: bytes -> Request, r: State, id: ClientId, raw: bytes): State {
    var frame := SlipDataProcessor.Parsed(raw);
    if frame.socketAddress == JSON_ADDRESS then HandlePacket(read, r, id, frame.data)
    else RouteFrame(r, id, frame)
  }

  // ---------------------------------------------------------------- disconnecting

  /** The socket is gone from m_proxyClients and from the JSON server's list. */
  function Unlist(r: State, id: ClientId): State
    requires id in r.transports
  {
    Append(WithTransport(r, id, r.transports[id].(listed := false)), Closed(id))
      .(jsonClients := r.jsonClients - {id})
  }

  function Orphan(c: ClientConnection): ClientConnection {
    c.(server := None, address := NO_ADDRESS)
  }

  /** A server's transport closed: its clients are unregistered and killed. */
  function DropServer(r: State, serverUuid: Uuid): State
    requires serverUuid in r.servers
  {
    var members := r.servers[serverUuid].byUuid;
    Append(r, Killed(set c | c in members :: ClientTransport(r, c)))
      .(servers := r.servers - {serverUuid},
        clients := map c | c in r.clients :: if c in members then Orphan(r.clients[c]) else r.clients[c])
  }

  /** A client's transport closed: its server, if it still has one, is told. */
  function DropClient(r: State, clientUuid: Uuid): State
    requires clientUuid in r.clients
  {
    var c := r.clients[clientUuid];
    var r1 := r.(clients := r.clients - {clientUuid});
    if c.server.None? || c.server.value !in r.servers then r1
    else
      var s := r.servers[c.server.value];
      Send(r1.(servers := r.servers[c.server.value := Detach(s, clientUuid, c.address)],
               notificationId := r.notificationId + 1),
           s.transport, ClientDisconnected(r.notificationId, c.address))
  }

  function Disconnect(r: State, id: ClientId): State {
    if !Listed(r, id) then r else
      var t, r1 := r.transports[id], Unlist(r, id);
      if t.kind == TypeServer && t.uuid in r.servers then DropServer(r1, t.uuid)
      else if t.kind == TypeClient && t.uuid in r.clients then DropClient(r1, t.uuid)
      else r1
  }

  function DisconnectAll(r: State, ids: seq<ClientId>): State {
    if ids == [] then r else Disconnect(DisconnectAll(r, ids[..|ids| - 1]), ids[|ids| - 1])
  }

  // ---------------------------------------------------------------- events

  /** One thing that reaches the proxy. `hangups[i]` lists the sockets whose disconnect is
      signalled while item i of the chunk is handled, as close() may do at once. */
  datatype Event =
    | Connected(id: ClientId, peer: string)
    | Disconnected(id: ClientId)
    | Data(id: ClientId, data: bytes, hangups: seq<seq<ClientId>>)
    | Inactive(id: ClientId)
    | Tick

  function Connect(r: State, id: ClientId, peer: string): State {
    if Listed(r, id) then Kill(r, id)
    else
      Append(WithTransport(r, id, Transport(peer, TypeNone, NULL_UUID, "", false, false, false, [], true)), Opened(id))
        .(jsonClients := r.jsonClients + {id})
  }

  function Hangups(hangups: seq<seq<ClientId>>, i: nat): seq<ClientId> {
    if i < |hangups| then hangups[i] else []
  }

  /** One packet or frame, and the disconnects that land while it is handled. */
  function HandleItem(read: bytes -> Request, r: State, id: ClientId, item: bytes, slip: bool,
                      gone: seq<ClientId>): State {
    DisconnectAll(if slip then HandleFrame(read, r, id, item) else HandlePacket(read, r, id, item), gone)
  }

  /** The packets or frames of one chunk, in order. */
  function HandleItems(read: bytes -> Request, r: State, id: ClientId, items: seq<bytes>, slip: bool,
                       hangups: seq<seq<ClientId>>): State {
    if items == [] then r else
      var n := |items| - 1;
      HandleItem(read, HandleItems(read, r, id, items[..n], slip, hangups), id, items[n], slip, Hangups(hangups, n))
  }

  function WithBuffer(r: State, id: ClientId, buffer: bytes): State
    requires id in r.transports
  {
    WithTransport(r, id, r.transports[id].(buffer := buffer))
  }

  /** JsonRpcServer::processData. */
  function ReceiveJson(read: bytes -> Request, r: State, id: ClientId, data: bytes, hangups: seq<seq<ClientId>>): State
    requires id in r.transports
  {
    if id !in r.jsonClients then r else
      var in' := JsonStream.Ingest(r.transports[id].buffer, data);
      var r1 := WithBuffer(r, id, in'.buffer);
      if |in'.buffer| > MAX_BUFFER then Kill(r1, id)
      else HandleItems(read, r1, id, in'.Packets(), false, hangups)
  }

  function ReceiveSlip(read: bytes -> Request, r: State, id: ClientId, data: bytes, hangups: seq<seq<ClientId>>): State
    requires id in r.transports
  {
    var s := Framing.Assemble(r.transports[id].buffer, data);
    HandleItems(read, WithBuffer(r, id, s.buffer), id, s.frames, true, hangups)
  }

  /** The chunk of a client connection goes to its server; one without a server is dropped. */
  function ReceiveTunnel(r: State, client: Uuid, data: bytes): State {
    if client !in r.clients then r else
      match r.clients[client].server
      case None => r
      case Some(s) => if s in r.servers then TunnelChunk(r, client, s, data) else r
  }

  function Receive(read: bytes -> Request, r: State, id: ClientId, data: bytes, hangups: seq<seq<ClientId>>): State {
    if !Listed(r, id) then r else
      var t := r.transports[id];
      match t.kind
      case TypeClient => ReceiveTunnel(r, t.uuid, data)
      case TypeServer =>
        if t.slip then ReceiveSlip(read, r, id, data, hangups) else ReceiveJson(read, r, id, data, hangups)
      case TypeNone => ReceiveJson(read, r, id, data, hangups)
  }

  function Publish(r: State): State {
    Append(r, Published(r.troughputCounter)).(troughput := r.troughputCounter, troughputCounter := 0)
  }

  function Step(read: bytes -> Request, r: State, e: Event): State {
    match e
    case Connected(id, peer) => Connect(r, id, peer)
    case Disconnected(id) => Disconnect(r, id)
    case Data(id, data, hangups) => Receive(read, r, id, data, hangups)
    case Inactive(id) => Kill(r, id)
    case Tick => Publish(r)
  }

  function Run(read: bytes -> Request, es: seq<Event>): State {
    if es == [] then INIT else Step(read, Run(read, es[..|es| - 1]), es[|es| - 1])
  }
}
