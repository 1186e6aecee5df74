/** The proxy itself, changed in place: its three tables of objects that point at each other
    (libnymea-remoteproxy/tunnelproxy/tunnelproxyserver.cpp) together with the client list
    and the notification counter of its JSON server
    (libnymea-remoteproxy/server/jsonrpcserver.cpp).

    Every operation does to Value() exactly what Registry says, so whatever is proved of
    the runs of Registry holds of the objects. */
module TunnelProxyServer {
  import opened Bytes
  import opened Messages
  import opened AddressAllocator
  import opened Registry
  import opened TunnelProxy
  import JsonStream
  import Framing
  import RegistryInvariant
  import RegistryCalls
  import RegistryAnswers
  import RegistryRuns
  import SlipDataProcessor

  class TunnelProxyServer {
    const codec: Codec
    const read: bytes -> Request
    var proxyClients: map<ClientId, TunnelProxyClient>
    var serverConnections: map<Uuid, TunnelProxyServerConnection>
    var clientConnections: map<Uuid, TunnelProxyClientConnection>
    var jsonClients: set<TunnelProxyClient>
    var troughput: nat
    var troughputCounter: nat
    var notificationId: nat
    /** The last object of every socket that ever connected. */
    ghost var known: map<ClientId, TunnelProxyClient>
    ghost var log: seq<Entry>
    /** Every object the tables lead to. */
    ghost var Repr: set<object>

    // -------------------------------------------------------------- the value

    ghost function Transports(): map<ClientId, Transport>
      reads this`known, this`proxyClients, known.Values
    {
      map id | id in known :: known[id].Value(id in proxyClients)
    }

    ghost function Servers(): map<Uuid, ServerConnection>
      reads this`serverConnections, serverConnections.Values
    {
      map u | u in serverConnections :: serverConnections[u].Value()
    }

    ghost function Clients(): map<Uuid, ClientConnection>
      reads this`clientConnections, clientConnections.Values
    {
      map c | c in clientConnections :: clientConnections[c].Value()
    }

    ghost function JsonIds(): set<ClientId>
      reads this`jsonClients
    {
      set t: TunnelProxyClient | t in jsonClients :: t.clientId
    }

    ghost function Value(): State
      reads this, known.Values, serverConnections.Values, clientConnections.Values
    {
      State(Transports(), JsonIds(), Servers(), Clients(), troughput, troughputCounter, notificationId, log)
    }

    // -------------------------------------------------------------- pointers

    ghost predicate Known(t: TunnelProxyClient)
      reads this`known
    {
      t.clientId in known && known[t.clientId] == t
    }

    ghost predicate IsListed(t: TunnelProxyClient)
      reads this`proxyClients
    {
      t.clientId in proxyClients && proxyClients[t.clientId] == t
    }

    ghost predicate Holds(t: TunnelProxyClient, kind: Kind, uuid: Uuid)
      reads this`known, this`proxyClients, known.Values
    {
      Known(t) && IsListed(t) && known[t.clientId].kind == kind && known[t.clientId].uuid == uuid
    }

    ghost predicate Owns()
      reads this`Repr, this`known, this`serverConnections, this`clientConnections
    {
      && this in Repr
      && (forall id :: id in known ==> known[id] in Repr)
      && (forall u :: u in serverConnections ==> serverConnections[u] in Repr)
      && (forall c :: c in clientConnections ==> clientConnections[c] in Repr)
    }

    ghost predicate KnowsSockets()
      reads this`known, this`proxyClients, this`jsonClients
    {
      && (forall id :: id in known ==> known[id].clientId == id)
      && (forall id :: id in proxyClients ==> id in known && known[id] == proxyClients[id])
      && (forall t :: t in jsonClients ==> IsListed(t))
    }

    ghost predicate ServerHeld(u: Uuid)
      requires u in serverConnections
      reads this`known, this`proxyClients, this`serverConnections, known.Values
    {
      Holds(serverConnections[u].transportClient, TypeServer, u)
    }

    ghost predicate ClientHeld(c: Uuid)
      requires c in clientConnections
      reads this`known, this`proxyClients, this`clientConnections, known.Values
    {
      Holds(clientConnections[c].transportClient, TypeClient, c)
    }

    /** SLIP is for servers. */
    ghost predicate SlipFits(id: ClientId)
      requires id in known
      reads this`known, known.Values
    {
      known[id].slipEnabled || known[id].slipAfterResponse ==> known[id].kind == TypeServer
    }

    /** Every connection has a listed socket that knows its own role. */
    ghost predicate SocketsHeld()
      reads this`known, this`proxyClients, this`serverConnections, this`clientConnections, known.Values
    {
      && (forall u {:trigger ServerHeld(u)} :: u in serverConnections ==> ServerHeld(u))
      && (forall c {:trigger ClientHeld(c)} :: c in clientConnections ==> ClientHeld(c))
      && (forall id {:trigger SlipFits(id)} :: id in known ==> SlipFits(id))
    }

    ghost predicate ServerPoints(u: Uuid)
      requires u in serverConnections
      reads this`serverConnections, this`clientConnections, serverConnections.Values, clientConnections.Values
    {
      var s := serverConnections[u];
      && s.serverUuid == u
      && (forall c :: c in s.clientConnections ==>
          s.clientConnections[c].clientUuid == c && PointsBack(s, s.clientConnections[c]))
      && (forall a :: a in s.clientConnectionsAddresses ==>
            PointsBack(s, s.clientConnectionsAddresses[a])
            && clientConnections[s.clientConnectionsAddresses[a].clientUuid].socketAddress == a)
    }

    ghost predicate PointsBack(s: TunnelProxyServerConnection, cc: TunnelProxyClientConnection)
      reads this`clientConnections, clientConnections.Values
    {
      && cc.clientUuid in clientConnections && clientConnections[cc.clientUuid] == cc
      && clientConnections[cc.clientUuid].serverConnection == s
    }

    ghost predicate ClientPoints(c: Uuid)
      requires c in clientConnections
      reads this`serverConnections, this`clientConnections, serverConnections.Values, clientConnections.Values
    {
      var cc := clientConnections[c];
      && cc.clientUuid == c && cc.Valid()
      && (cc.serverConnection != null ==> IsMember(cc.serverConnection.serverUuid, cc.serverConnection, cc))
    }

    ghost predicate IsMember(u: Uuid, s: TunnelProxyServerConnection, cc: TunnelProxyClientConnection)
      reads this`serverConnections, serverConnections.Values
    {
      && u in serverConnections && serverConnections[u] == s
      && cc.clientUuid in serverConnections[u].clientConnections
      && serverConnections[u].clientConnections[cc.clientUuid] == cc
    }

    ghost predicate ServersPoint()
      reads this`serverConnections, this`clientConnections, serverConnections.Values, clientConnections.Values
    {
      forall u {:trigger ServerPoints(u)} :: u in serverConnections ==> ServerPoints(u)
    }

    ghost predicate ClientsPoint()
      reads this`serverConnections, this`clientConnections, serverConnections.Values, clientConnections.Values
    {
      forall c {:trigger ClientPoints(c)} :: c in clientConnections ==> ClientPoints(c)
    }

    /** Every object is found under its own key, and every pointer leads to a table and, the
        other way, back. */
    ghost predicate Valid()
      reads this`known, this`proxyClients, this`serverConnections, this`clientConnections, this`jsonClients, this`Repr,
        known.Values, serverConnections.Values, clientConnections.Values
    {
      Owns() && KnowsSockets() && SocketsHeld() && ServersPoint() && ClientsPoint()
    }

    constructor (codec: Codec, read: bytes -> Request)
      ensures Valid() && Value() == INIT && this.codec == codec && this.read == read
      ensures fresh(Repr)
    {
      this.codec, this.read := codec, read;
      proxyClients, serverConnections, clientConnections, jsonClients := map[], map[], map[], {};
      troughput, troughputCounter, notificationId := 0, 0, 0;
      known, log, Repr := map[], [], {this};
    }

    lemma ValueReads(id: ClientId)
      requires Valid()
      ensures Value().servers.Keys == serverConnections.Keys && Value().clients.Keys == clientConnections.Keys
      ensures Listed(Value(), id) <==> id in proxyClients
      ensures id in known ==> id in Value().transports && Value().transports[id] == known[id].Value(id in proxyClients)
    {
    }

    lemma SocketReads(t: TunnelProxyClient)
      requires KnowsSockets() && Known(t)
      ensures t.clientId in Transports() && Transports()[t.clientId] == t.Value(t.clientId in proxyClients)
    {
    }

    // -------------------------------------------------------------- sockets

    /** What is written to a socket; the message it stands for is noted. */
    method SendData(t: TunnelProxyClient, data: bytes, ghost m: Message)
      requires data == MessageWire(codec, m)
      modifies this`log
      ensures log == old(log) + [Sent(t.clientId, m)]
    {
      log := log + [Sent(t.clientId, m)];
    }

    method KillConnection(t: TunnelProxyClient)
      modifies this`log
      ensures log == old(log) + [Killed({t.clientId})]
    {
      log := log + [Killed({t.clientId})];
    }

    ghost function Told(t: TunnelProxyClient, c: Control): Entry
      reads t
    {
      Sent(t.clientId, if t.slipEnabled then Framed(c) else Plain(c))
    }

    /** sendResponse, sendErrorResponse and sendNotification. */
    method SendControl(t: TunnelProxyClient, c: Control)
      modifies this`log
      ensures log == old(log) + [Told(t, c)]
    {
      var data := codec.encode(c);
      if t.slipEnabled {
        var frame := SlipDataProcessor.BuildFrame(SlipDataProcessor.Frame(0, data));
        var raw := SlipDataProcessor.SerializeData(frame);
        SendData(t, raw, Framed(c));
      } else {
        SendData(t, data, Plain(c));
      }
    }

    // -------------------------------------------------------------- registering

    /** At most one socket changed. */
    twostate predicate OtherSockets(t: TunnelProxyClient)
      reads this`known, this`proxyClients, this`jsonClients, known.Values
    {
      && unchanged(this`known, this`proxyClients, this`jsonClients)
      && (forall id :: id in known && id != t.clientId ==> unchanged(known[id]))
    }

    twostate predicate SameServers()
      reads this`serverConnections, serverConnections.Values
    {
      unchanged(this`serverConnections) && forall u :: u in serverConnections ==> unchanged(serverConnections[u])
    }

    twostate predicate SameClients()
      reads this`clientConnections, clientConnections.Values
    {
      unchanged(this`clientConnections) && forall c :: c in clientConnections ==> unchanged(clientConnections[c])
    }

    twostate predicate SameCounters()
      reads this
    {
      unchanged(this`troughput, this`troughputCounter)
    }

    twostate lemma SameClientTable()
      requires SameClients()
      ensures Clients() == old(Clients())
    {
    }

    twostate lemma SameTables()
      requires SameServers() && SameClients()
      ensures Servers() == old(Servers()) && Clients() == old(Clients())
    {
    }

    /** No table and no object in them changed. */
    twostate predicate TablesSame()
      reads this, known.Values, serverConnections.Values, clientConnections.Values
    {
      && unchanged(this`known, this`proxyClients, this`jsonClients, this`Repr)
      && (forall id :: id in known ==> unchanged(known[id]))
      && SameServers() && SameClients()
    }

    twostate lemma LoggedStep()
      requires old(Valid()) && TablesSame()
      ensures Valid()
      ensures Value() == old(Value()).(troughput := troughput, troughputCounter := troughputCounter,
                                       notificationId := notificationId, log := log)
    {
      assert Transports() == old(Transports());
      SameTables();
      forall u | u in serverConnections ensures ServerHeld(u) {
        assert old(ServerHeld(u));
      }
      forall c | c in clientConnections ensures ClientHeld(c) {
        assert old(ClientHeld(c));
      }
      forall id | id in known ensures SlipFits(id) {
        assert old(SlipFits(id));
      }
      TablesStillPoint();
    }

    /** A notification was sent, and nothing else. */
    twostate lemma NumberedStep()
      requires old(Valid()) && TablesSame() && SameCounters()
      ensures Valid() && Value() == old(Value()).(notificationId := notificationId, log := log)
    {
      LoggedStep();
    }

    twostate lemma SocketsStep(t: TunnelProxyClient)
      requires old(KnowsSockets()) && old(Known(t)) && OtherSockets(t)
      ensures KnowsSockets() && JsonIds() == old(JsonIds())
      ensures Transports() == old(Transports())[t.clientId := t.Value(t.clientId in proxyClients)]
      ensures old(Transports())[t.clientId] == old(t.Value(t.clientId in proxyClients))
    {
    }

    /** The flags of one socket changed, and nothing else. */
    twostate predicate FlagsChanged(t: TunnelProxyClient)
      reads this, known.Values, serverConnections.Values, clientConnections.Values, t
    {
      && OtherSockets(t) && SameServers() && SameClients() && SameCounters() && unchanged(this`Repr)
      && unchanged(this`log, this`notificationId)
      && t.kind == old(t.kind) && t.uuid == old(t.uuid)
      && (t.slipEnabled || t.slipAfterResponse ==> old(t.slipEnabled || t.slipAfterResponse))
    }

    twostate lemma FlagsChangedValid(t: TunnelProxyClient)
      requires old(Valid()) && old(Known(t)) && FlagsChanged(t)
      ensures Valid()
    {
      SocketsStep(t);
      forall u | u in serverConnections ensures ServerHeld(u) {
        assert old(ServerHeld(u));
      }
      forall c | c in clientConnections ensures ClientHeld(c) {
        assert old(ClientHeld(c));
      }
      forall id | id in known ensures SlipFits(id) {
        assert old(SlipFits(id));
      }
      TablesStillPoint();
    }

    twostate lemma FlagsChangedStep(t: TunnelProxyClient)
      requires old(Valid()) && old(Known(t)) && FlagsChanged(t)
      ensures Valid() && Value() == WithTransport(old(Value()), t.clientId, t.Value(t.clientId in proxyClients))
    {
      SocketsStep(t);
      FlagsChangedValid(t);
      SameTables();
    }

    method KillConnectionAfterResponse(t: TunnelProxyClient)
      requires Valid() && Known(t)
      modifies t`killConnectionRequested
      ensures Valid() && Value() == KillAfterResponse(old(Value()), t.clientId)
    {
      ValueReads(t.clientId);
      t.killConnectionRequested := true;
      FlagsChangedStep(t);
    }

    // -------------------------------------------------------------- a server registers

    /** One socket became a server, under the uuid it now has. */
    twostate predicate ServerAdded(t: TunnelProxyClient)
      reads this`known, this`proxyClients, this`jsonClients, this`serverConnections, this`clientConnections, this`Repr,
        known.Values, serverConnections.Values, clientConnections.Values, t
    {
      && OtherSockets(t) && SameClients() && Owns()
      && old(IsListed(t)) && old(t.kind) == TypeNone && t.kind == TypeServer
      && ServerEntered(t)
    }

    twostate predicate ServerEntered(t: TunnelProxyClient)
      reads this`serverConnections, serverConnections.Values, t
    {
      && t.uuid !in old(serverConnections)
      && t.uuid in serverConnections && serverConnections == old(serverConnections)[t.uuid := serverConnections[t.uuid]]
      && (forall v :: v in serverConnections && v != t.uuid ==> unchanged(serverConnections[v]))
      && var s := serverConnections[t.uuid];
         && s.transportClient == t && s.serverUuid == t.uuid && s.currentAddressCounter == 0
         && s.clientConnections == map[] && s.clientConnectionsAddresses == map[]
    }

    twostate lemma ServerEnteredValue(t: TunnelProxyClient)
      requires ServerEntered(t)
      ensures Servers() == old(Servers())[t.uuid := ServerConnection(t.clientId, 0, {}, map[])]
    {
      assert serverConnections[t.uuid].Value() == ServerConnection(t.clientId, 0, {}, map[]);
    }

    twostate lemma ServerAddedHeld(t: TunnelProxyClient)
      requires old(KnowsSockets() && SocketsHeld()) && ServerAdded(t)
      ensures SocketsHeld()
    {
      forall u | u in serverConnections ensures ServerHeld(u) {
        assert u != t.uuid ==> old(ServerHeld(u));
      }
      forall c | c in clientConnections ensures ClientHeld(c) {
        assert old(ClientHeld(c));
      }
      forall id | id in known ensures SlipFits(id) {
        assert old(SlipFits(id));
      }
    }

    twostate lemma ServerAddedPoints(t: TunnelProxyClient)
      requires old(ServersPoint() && ClientsPoint()) && ServerAdded(t)
      ensures ServersPoint() && ClientsPoint()
    {
      forall u | u in serverConnections ensures ServerPoints(u) {
        assert u != t.uuid ==> old(ServerPoints(u));
      }
      forall c | c in clientConnections ensures ClientPoints(c) {
        assert old(ClientPoints(c));
      }
    }

    twostate lemma ServerAddedStep(t: TunnelProxyClient)
      requires old(Valid()) && ServerAdded(t) && SameCounters() && unchanged(this`log, this`notificationId)
      requires t.Value(true) == old(t.Value(true)).(kind := TypeServer, uuid := t.uuid, name := t.name,
                                                    slipAfter := true)
      ensures Valid() && Value() == Registry.AddServer(old(Value()), t.clientId, t.uuid, t.name)
    {
      SocketsStep(t);
      ServerEnteredValue(t);
      ServerAddedHeld(t);
      ServerAddedPoints(t);
      SameClientTable();
    }

    method AddServer(t: TunnelProxyClient, serverUuid: Uuid, serverName: string)
      requires Owns() && KnowsSockets() && IsListed(t) && t.kind == TypeNone && serverUuid !in serverConnections
      modifies t, this`serverConnections, this`Repr
      ensures ServerAdded(t) && fresh(Repr - old(Repr)) && t.uuid == serverUuid
      ensures t.Value(true) == old(t.Value(true)).(kind := TypeServer, uuid := serverUuid, name := serverName,
                                                   slipAfter := true)
    {
      t.SetRole(TypeServer, serverUuid, serverName);
      t.SetSlipAfterResponse();
      var s := new TunnelProxyServerConnection(t, serverUuid);
      serverConnections := serverConnections[serverUuid := s];
      Repr := Repr + {s};
    }

    method RegisterServer(clientId: ClientId, serverUuid: Uuid, serverName: string) returns (e: ProxyError)
      requires Valid()
      modifies Repr
      ensures Valid() && fresh(Repr - old(Repr)) && unchanged(this`known)
      ensures (Value(), e) == CallRegisterServer(old(Value()), clientId, serverUuid, serverName)
    {
      ValueReads(clientId);
      if clientId !in proxyClients {
        return InternalServerError;
      }
      var t := proxyClients[clientId];
      if t.kind != TypeNone {
        KillConnectionAfterResponse(t);
        return AlreadyRegistered;
      }
      if serverUuid in serverConnections {
        KillConnectionAfterResponse(t);
        return AlreadyRegistered;
      }
      if serverUuid in clientConnections {
        KillConnectionAfterResponse(t);
        return AlreadyRegistered;
      }
      AddServer(t, serverUuid, serverName);
      ServerAddedStep(t);
      return NoError;
    }

    // -------------------------------------------------------------- a client registers

    /** One socket became a client of a server, under the uuid it now has. */
    twostate predicate ClientAdded(t: TunnelProxyClient)
      reads this`known, this`proxyClients, this`jsonClients, this`serverConnections, this`clientConnections, this`Repr,
        known.Values, serverConnections.Values, clientConnections.Values, t
    {
      && OtherSockets(t) && Owns()
      && old(IsListed(t)) && old(t.kind) == TypeNone && t.kind == TypeClient
         && unchanged(t`slipEnabled, t`slipAfterResponse)
      && ClientEntered(t) && clientConnections[t.uuid].serverConnection != null
      && ClientAttached(clientConnections[t.uuid])
    }

    twostate predicate ClientEntered(t: TunnelProxyClient)
      reads this`clientConnections, clientConnections.Values, t
    {
      && t.uuid !in old(clientConnections)
      && t.uuid in clientConnections && clientConnections == old(clientConnections)[t.uuid := clientConnections[t.uuid]]
      && (forall c :: c in clientConnections && c != t.uuid ==> unchanged(clientConnections[c]))
      && var cc := clientConnections[t.uuid];
         cc.clientUuid == t.uuid && cc.transportClient == t && cc.fed == [] && cc.Valid()
    }

    twostate predicate ClientAttached(new cc: TunnelProxyClientConnection)
      reads this`serverConnections, serverConnections.Values, cc
    {
      && unchanged(this`serverConnections) && cc.serverUuid in serverConnections
      && (forall u :: u in serverConnections && u != cc.serverUuid ==> unchanged(serverConnections[u]))
      && var s := serverConnections[cc.serverUuid];
         && cc.serverConnection == s && s.serverUuid == cc.serverUuid
         && s.clientConnections == old(s.clientConnections)[cc.clientUuid := cc]
         && s.clientConnectionsAddresses == old(s.clientConnectionsAddresses)[cc.socketAddress := cc]
    }

    twostate lemma ClientEnteredValue(t: TunnelProxyClient)
      requires ClientEntered(t)
      ensures Clients() == old(Clients())[t.uuid := clientConnections[t.uuid].Value()]
    {
    }

    twostate predicate ClientNumbered(new cc: TunnelProxyClientConnection)
      requires ClientAttached(cc)
      reads this`serverConnections, serverConnections.Values, cc
    {
      var s := serverConnections[cc.serverUuid];
      Attached(s.Value(), old(s.Value()), cc.clientUuid, cc.socketAddress)
    }

    twostate lemma ClientAttachedValue(new cc: TunnelProxyClientConnection)
      requires ClientAttached(cc) && ClientNumbered(cc)
      ensures cc.serverUuid in old(Servers())
      ensures Servers() == old(Servers())[cc.serverUuid := serverConnections[cc.serverUuid].Value()]
      ensures Attached(Servers()[cc.serverUuid], old(Servers())[cc.serverUuid], cc.clientUuid, cc.socketAddress)
    {
    }

    twostate lemma ClientAddedHeld(t: TunnelProxyClient)
      requires old(KnowsSockets() && SocketsHeld()) && ClientAdded(t)
      ensures SocketsHeld()
    {
      forall u | u in serverConnections ensures ServerHeld(u) {
        assert old(ServerHeld(u));
      }
      forall c | c in clientConnections ensures ClientHeld(c) {
        assert c != t.uuid ==> old(ClientHeld(c));
      }
      forall id | id in known ensures SlipFits(id) {
        assert old(SlipFits(id));
      }
    }

    twostate lemma ClientAddedServersPoint(t: TunnelProxyClient)
      requires old(ServersPoint()) && ClientAdded(t)
      ensures ServersPoint()
    {
      forall u | u in serverConnections ensures ServerPoints(u) {
        assert old(ServerPoints(u));
      }
    }

    twostate lemma ClientAddedPoints(t: TunnelProxyClient)
      requires old(ServersPoint() && ClientsPoint()) && ClientAdded(t)
      ensures ServersPoint() && ClientsPoint()
    {
      ClientAddedServersPoint(t);
      forall c | c in clientConnections ensures ClientPoints(c) {
        assert c != t.uuid ==> old(ClientPoints(c));
      }
    }

    twostate lemma ClientAddedTables(t: TunnelProxyClient)
      requires old(Valid()) && ClientAdded(t) && ClientNumbered(clientConnections[t.uuid])
      requires t.Value(true) == old(t.Value(true)).(kind := TypeClient, uuid := t.uuid, name := t.name)
      ensures JsonIds() == old(JsonIds()) && t.clientId in old(Transports())
      ensures TablesAttach(Transports(), Servers(), Clients(), old(Transports()), old(Servers()), old(Clients()),
                           t.clientId, t.uuid, t.name, clientConnections[t.uuid].serverUuid)
    {
      SocketsStep(t);
      ClientEnteredValue(t);
      ClientAttachedValue(clientConnections[t.uuid]);
    }

    twostate lemma ClientAddedStep(t: TunnelProxyClient)
      requires old(Valid()) && ClientAdded(t) && ClientNumbered(clientConnections[t.uuid])
      requires SameCounters() && unchanged(this`log, this`notificationId)
      requires t.Value(true) == old(t.Value(true)).(kind := TypeClient, uuid := t.uuid, name := t.name)
      ensures Valid()
      ensures IsAttach(Value(), old(Value()), t.clientId, t.uuid, t.name, clientConnections[t.uuid].serverUuid)
    {
      ClientAddedHeld(t);
      ClientAddedPoints(t);
      SocketsStep(t);
      ClientAddedTables(t);
    }

    method NewClientConnection(t: TunnelProxyClient, clientUuid: Uuid, clientName: string,
                               serverConnection: TunnelProxyServerConnection)
        returns (c: TunnelProxyClientConnection)
      requires Owns() && KnowsSockets() && IsListed(t) && clientUuid !in clientConnections
      modifies t, this`clientConnections, this`Repr
      ensures OtherSockets(t) && ClientEntered(t) && clientConnections[t.uuid] == c && fresh(c)
      ensures Repr == old(Repr) + {c} && Owns()
      ensures t.Value(true) == old(t.Value(true)).(kind := TypeClient, uuid := clientUuid, name := clientName)
    {
      t.SetRole(TypeClient, clientUuid, clientName);
      c := new TunnelProxyClientConnection(t, clientUuid);
      c.SetServerConnection(serverConnection);
      clientConnections := clientConnections[clientUuid := c];
      Repr := Repr + {c};
    }

    method AddClient(t: TunnelProxyClient, clientUuid: Uuid, clientName: string,
                     serverConnection: TunnelProxyServerConnection)
      requires Owns() && KnowsSockets() && IsListed(t) && t.kind == TypeNone && clientUuid !in clientConnections
      requires serverConnection.serverUuid in serverConnections
      requires serverConnections[serverConnection.serverUuid] == serverConnection
      requires forall u :: u in serverConnections ==> serverConnections[u].serverUuid == u
      modifies t, serverConnection, this`clientConnections, this`Repr
      ensures ClientAdded(t) && fresh(Repr - old(Repr)) && t.uuid == clientUuid
      ensures clientConnections[t.uuid].serverConnection == serverConnection
      ensures ClientNumbered(clientConnections[t.uuid])
      ensures t.Value(true) == old(t.Value(true)).(kind := TypeClient, uuid := clientUuid, name := clientName)
    {
      var c := NewClientConnection(t, clientUuid, clientName, serverConnection);
      assert serverConnection.Value().byAddress.Keys == serverConnection.clientConnectionsAddresses.Keys;
      serverConnection.RegisterClientConnection(c);
    }

    method ConnectClient(t: TunnelProxyClient, clientUuid: Uuid, clientName: string, serverUuid: Uuid)
      requires Valid() && IsListed(t) && t.kind == TypeNone && clientUuid !in clientConnections
      requires serverUuid in serverConnections
      modifies t, serverConnections[serverUuid], this`clientConnections, this`Repr
      ensures Valid() && fresh(Repr - old(Repr))
      ensures IsAttach(Value(), old(Value()), t.clientId, clientUuid, clientName, serverUuid)
    {
      assert forall u :: u in serverConnections ==> ServerPoints(u) && serverConnections[u].serverUuid == u;
      AddClient(t, clientUuid, clientName, serverConnections[serverUuid]);
      ClientAddedStep(t);
    }

    /** What the tables say on a client and its server. */
    lemma AttachmentReads(c: Uuid)
      requires Valid() && c in clientConnections && clientConnections[c].serverConnection != null
      ensures var cc, r := clientConnections[c], Value();
              && Known(cc.transportClient) && cc.transportClient.uuid == c && Known(cc.serverConnection.transportClient)
              && c in r.clients && r.clients[c] == cc.Value()
              && r.transports[cc.transportClient.clientId] == cc.transportClient.Value(true)
              && cc.serverConnection.serverUuid in r.servers
              && r.servers[cc.serverConnection.serverUuid].transport == cc.serverConnection.transportClient.clientId
              && r.transports[cc.serverConnection.transportClient.clientId]
                 == cc.serverConnection.transportClient.Value(true)
    {
      var cc := clientConnections[c];
      assert ClientPoints(c) && ClientHeld(c) && ServerHeld(cc.serverConnection.serverUuid);
      SocketReads(cc.transportClient);
      SocketReads(cc.serverConnection.transportClient);
    }

    /** What the server of client c is told about it. */
    ghost function Announcement(c: Uuid): Entry
      requires c in clientConnections && clientConnections[c].serverConnection != null
      reads this`clientConnections, this`notificationId, clientConnections.Values,
        clientConnections[c].transportClient, clientConnections[c].serverConnection.transportClient
    {
      var cc := clientConnections[c];
      Told(cc.serverConnection.transportClient,
           ClientConnected(notificationId, cc.transportClient.name, cc.transportClient.uuid,
                           cc.transportClient.peerAddress, cc.socketAddress))
    }

    lemma AnnouncementReads(c: Uuid)
      requires Valid() && c in clientConnections && clientConnections[c].serverConnection != null
      ensures CanAnnounce(Value(), c) && Announcement(c) == AnnouncementOf(Value(), c)
    {
      AttachmentReads(c);
    }

    /** Tell the server of client c about it. */
    method AnnounceClient(c: Uuid)
      requires Valid() && c in clientConnections && clientConnections[c].serverConnection != null
      modifies this`notificationId, this`log
      ensures Valid() && unchanged(this`Repr) && IsAnnounced(Value(), old(Value()), c)
    {
      AnnouncementReads(c);
      Announce(c);
      NumberedStep();
    }

    method Announce(c: Uuid)
      requires c in clientConnections && clientConnections[c].serverConnection != null
      modifies this`notificationId, this`log
      ensures notificationId == old(notificationId) + 1 && log == old(log) + [old(Announcement(c))]
    {
      var clientConnection := clientConnections[c];
      var t := clientConnection.transportClient;
      var id := notificationId;
      notificationId := notificationId + 1;
      SendControl(clientConnection.serverConnection.transportClient,
                  ClientConnected(id, t.name, t.uuid, t.peerAddress, clientConnection.socketAddress));
    }

    method RegisterClient(clientId: ClientId, clientUuid: Uuid, clientName: string,
                          serverUuid: Uuid) returns (e: ProxyError)
      requires Valid()
      modifies Repr
      ensures Valid() && fresh(Repr - old(Repr)) && unchanged(this`known)
      ensures (Value(), e) == CallRegisterClient(old(Value()), clientId, clientUuid, clientName, serverUuid)
    {
      ValueReads(clientId);
      if clientId !in proxyClients {
        return InternalServerError;
      }
      var t := proxyClients[clientId];
      if t.kind != TypeNone {
        KillConnectionAfterResponse(t);
        return AlreadyRegistered;
      }
      if clientUuid in clientConnections {
        KillConnectionAfterResponse(t);
        return AlreadyRegistered;
      }
      if clientUuid in serverConnections {
        KillConnectionAfterResponse(t);
        return AlreadyRegistered;
      }
      if serverUuid !in serverConnections {
        KillConnectionAfterResponse(t);
        return ServerNotFound;
      }
      EnterClient(t, clientUuid, clientName, serverUuid);
      return NoError;
    }

    method EnterClient(t: TunnelProxyClient, clientUuid: Uuid, clientName: string, serverUuid: Uuid)
      requires Valid() && IsListed(t) && t.kind == TypeNone && clientUuid !in clientConnections
      requires serverUuid in serverConnections
      modifies t, serverConnections[serverUuid], this`clientConnections, this`Repr, this`notificationId, this`log
      ensures Valid() && fresh(Repr - old(Repr))
      ensures Value() == Registry.AddClient(old(Value()), t.clientId, clientUuid, clientName, serverUuid)
    {
      ConnectClient(t, clientUuid, clientName, serverUuid);
      ghost var r1 := Value();
      AttachReads(clientUuid);
      AnnounceClient(clientUuid);
      AnnouncedIsAddClient(Value(), r1, old(Value()), t.clientId, clientUuid, clientName, serverUuid);
    }

    lemma AttachReads(c: Uuid)
      requires c in Value().clients && Value().clients[c].server.Some?
      ensures c in clientConnections && clientConnections[c].serverConnection != null
    {
    }

    // -------------------------------------------------------------- one packet

    method DisconnectClient(clientId: ClientId, socketAddress: u16) returns (e: ProxyError)
      requires Valid()
      modifies Repr
      ensures Valid() && unchanged(this`Repr, this`known)
      ensures (Value(), e) == CallDisconnectClient(old(Value()), clientId, socketAddress)
    {
      ValueReads(clientId);
      if clientId !in proxyClients {
        return InternalServerError;
      }
      var t := proxyClients[clientId];
      if t.kind != TypeServer {
        KillConnectionAfterResponse(t);
        return AlreadyRegistered;
      }
      if t.uuid !in serverConnections {
        KillConnectionAfterResponse(t);
        return InternalServerError;
      }
      var serverConnection := serverConnections[t.uuid];
      assert Servers()[t.uuid] == serverConnection.Value();
      if socketAddress !in serverConnection.clientConnectionsAddresses {
        return UnknownSocketAddress;
      }
      KillClientAt(t.uuid, socketAddress);
      return NoError;
    }

    /** The client at an address of a server, in the objects and in the value. */
    lemma AddressReads(u: Uuid, a: u16)
      requires Valid() && u in serverConnections && a in serverConnections[u].clientConnectionsAddresses
      ensures var r := Value();
              && u in r.servers && a in r.servers[u].byAddress
              && ClientTransport(r, r.servers[u].byAddress[a])
                 == serverConnections[u].clientConnectionsAddresses[a].transportClient.clientId
    {
      var clientConnection := serverConnections[u].clientConnectionsAddresses[a];
      assert Servers()[u] == serverConnections[u].Value();
      assert ServerPoints(u) && Clients()[clientConnection.clientUuid] == clientConnection.Value();
    }

    method KillClientAt(u: Uuid, a: u16)
      requires Valid() && u in serverConnections && a in serverConnections[u].clientConnectionsAddresses
      modifies this`log
      ensures Valid() && u in old(Value()).servers && a in old(Value()).servers[u].byAddress
      ensures Value() == Registry.Kill(old(Value()),
                                       ClientTransport(old(Value()), old(Value()).servers[u].byAddress[a]))
    {
      AddressReads(u, a);
      var clientConnection := serverConnections[u].clientConnectionsAddresses[a];
      KillConnection(clientConnection.transportClient);
      LoggedStep();
    }

    /** The handlers of the JSON server, one for each procedure. */
    method Invoke(t: TunnelProxyClient, p: Procedure) returns (reply: Reply)
      requires Valid()
      modifies Repr
      ensures Valid() && fresh(Repr - old(Repr)) && unchanged(this`known)
      ensures (Value(), reply) == Registry.Invoke(old(Value()), t.clientId, p)
      ensures reply == RegistryCalls.Owed(old(Value()), t.clientId, p)
    {
      RegistryCalls.InvokeOwes(Value(), t.clientId, p);
      match p
      case Hello => reply := Description;
      case Introspect => reply := Description;
      case Ping(timestamp) => reply := Pong(timestamp);
      case RegisterServer(serverUuid, serverName) =>
        if serverUuid == NULL_UUID {
          return ServerRegistration(InvalidUuid);
        }
        var e := RegisterServer(t.clientId, serverUuid, serverName);
        reply := ServerRegistration(e);
      case RegisterClient(clientUuid, clientName, serverUuid) =>
        if serverUuid == NULL_UUID || clientUuid == NULL_UUID {
          return ClientRegistration(InvalidUuid);
        }
        var e := RegisterClient(t.clientId, clientUuid, clientName, serverUuid);
        reply := ClientRegistration(e);
      case DisconnectClient(address) =>
        var e := DisconnectClient(t.clientId, address);
        reply := Disconnection(e);
    }

    method SendAnswer(t: TunnelProxyClient, c: Control)
      requires Valid() && Known(t)
      modifies this`log
      ensures Valid() && Value() == Send(old(Value()), t.clientId, c)
    {
      SocketReads(t);
      SendControl(t, c);
      LoggedStep();
    }

    method Kill(t: TunnelProxyClient)
      requires Valid()
      modifies this`log
      ensures Valid() && Value() == Registry.Kill(old(Value()), t.clientId)
    {
      KillConnection(t);
      LoggedStep();
    }

    method AfterResponse(t: TunnelProxyClient)
      requires Valid() && Known(t)
      modifies t`slipEnabled, this`log
      ensures Valid() && Value() == Registry.AfterResponse(old(Value()), t.clientId)
    {
      SocketReads(t);
      if t.killConnectionRequested {
        Kill(t);
        return;
      }
      if t.slipAfterResponse {
        t.slipEnabled := true;
        FlagsChangedStep(t);
      }
    }

    method ProcessDataPacket(t: TunnelProxyClient, packet: bytes)
      requires Valid() && Known(t)
      modifies Repr
      ensures Valid() && fresh(Repr - old(Repr)) && unchanged(this`known)
      ensures Value() == HandlePacket(read, old(Value()), t.clientId, packet)
    {
      match read(packet)
      case Unusable(id) =>
        SendAnswer(t, ErrorResponse(id));
        Kill(t);
      case Call(id, p) =>
        var reply := Invoke(t, p);
        SendAnswer(t, Response(id, reply));
        AfterResponse(t);
    }

    // -------------------------------------------------------------- a socket connects

    twostate predicate SocketAdded(id: ClientId)
      reads this`known, this`proxyClients, this`jsonClients, known.Values
    {
      && id !in old(proxyClients) && id in known && fresh(known[id]) && known[id].clientId == id
      && !known[id].slipEnabled && !known[id].slipAfterResponse
      && known == old(known)[id := known[id]] && proxyClients == old(proxyClients)[id := known[id]]
      && jsonClients == old(jsonClients) + {known[id]}
      && (forall i :: i in known && i != id ==> unchanged(known[i]))
    }

    twostate lemma SocketAddedValue(id: ClientId)
      requires old(KnowsSockets()) && SocketAdded(id)
      ensures KnowsSockets() && JsonIds() == old(JsonIds()) + {id}
      ensures Transports() == old(Transports())[id := known[id].Value(true)]
    {
    }

    twostate lemma SocketAddedValid(id: ClientId)
      requires old(Valid()) && SocketAdded(id) && SameServers() && SameClients() && Owns()
      ensures Valid()
    {
      SocketAddedValue(id);
      forall u | u in serverConnections ensures ServerHeld(u) {
        assert old(ServerHeld(u));
      }
      forall c | c in clientConnections ensures ClientHeld(c) {
        assert old(ClientHeld(c));
      }
      forall i | i in known ensures SlipFits(i) {
        assert i != id ==> old(SlipFits(i));
      }
      TablesStillPoint();
    }

    twostate lemma SocketAddedStep(id: ClientId)
      requires old(Valid()) && SocketAdded(id) && SameServers() && SameClients() && Owns() && SameCounters()
      requires unchanged(this`notificationId) && log == old(log) + [Opened(id)]
      requires known[id].Value(true)
               == Transport(known[id].peerAddress, TypeNone, NULL_UUID, "", false, false, false, [], true)
      ensures Valid() && Value() == Connect(old(Value()), id, known[id].peerAddress)
    {
      SocketAddedValue(id);
      SocketAddedValid(id);
      SameTables();
      assert id in old(Transports()) ==> !old(Transports())[id].listed;
    }

    method OnClientConnected(clientId: ClientId, address: string)
      requires Valid()
      modifies Repr
      ensures Valid() && fresh(Repr - old(Repr))
      ensures Value() == Connect(old(Value()), clientId, address)
    {
      ValueReads(clientId);
      if clientId in proxyClients {
        Kill(proxyClients[clientId]);
        return;
      }
      AddSocket(clientId, address);
      SocketAddedStep(clientId);
    }

    method AddSocket(clientId: ClientId, address: string)
      requires Owns() && KnowsSockets() && clientId !in proxyClients
      modifies this
      ensures SocketAdded(clientId) && SameServers() && SameClients() && Owns() && SameCounters()
      ensures unchanged(this`notificationId)
      ensures fresh(Repr - old(Repr)) && log == old(log) + [Opened(clientId)] && known[clientId].peerAddress == address
      ensures known[clientId].Value(true) == Transport(address, TypeNone, NULL_UUID, "", false, false, false, [], true)
    {
      var t := new TunnelProxyClient(clientId, address);
      proxyClients := proxyClients[clientId := t];
      jsonClients := jsonClients + {t};
      known := known[clientId := t];
      log := log + [Opened(clientId)];
      Repr := Repr + {t};
    }

    // -------------------------------------------------------------- a socket disconnects

    /** Socket t was taken out of the tables of sockets. */
    twostate predicate SocketGone(t: TunnelProxyClient)
      reads this`known, this`proxyClients, this`jsonClients, this`Repr, known.Values
    {
      && unchanged(this`known, this`Repr) && proxyClients == old(proxyClients) - {t.clientId}
      && jsonClients == old(jsonClients) - {t}
      && (forall id :: id in known ==> unchanged(known[id]))
    }

    twostate lemma SocketGoneJson(t: TunnelProxyClient)
      requires old(KnowsSockets()) && old(IsListed(t)) && SocketGone(t)
      ensures JsonIds() == old(JsonIds()) - {t.clientId}
    {
      assert forall x :: x in old(jsonClients) && x.clientId == t.clientId ==> x == t;
    }

    twostate lemma SocketGoneValue(t: TunnelProxyClient)
      requires old(KnowsSockets()) && old(IsListed(t)) && SocketGone(t)
      ensures KnowsSockets() && JsonIds() == old(JsonIds()) - {t.clientId}
      ensures t.clientId in old(Transports()) && old(Transports())[t.clientId] == old(t.Value(true))
      ensures Transports() == old(Transports())[t.clientId := old(t.Value(true)).(listed := false)]
      ensures t.kind == old(t.kind) && t.uuid == old(t.uuid)
    {
      SocketGoneJson(t);
      SocketGoneTransports(t);
    }

    twostate lemma SocketGoneTransports(t: TunnelProxyClient)
      requires old(KnowsSockets()) && old(IsListed(t)) && SocketGone(t)
      ensures t.clientId in old(Transports()) && old(Transports())[t.clientId] == old(t.Value(true))
      ensures Transports() == old(Transports())[t.clientId := old(t.Value(true)).(listed := false)]
    {
      assert t == known[t.clientId];
    }

    /** Every connection still in the tables keeps its socket, if that was not t. */
    twostate lemma SocketGoneHeld(t: TunnelProxyClient)
      requires old(KnowsSockets() && SocketsHeld()) && old(IsListed(t)) && SocketGone(t)
      requires serverConnections == old(serverConnections) || serverConnections == old(serverConnections) - {t.uuid}
      requires clientConnections == old(clientConnections) || clientConnections == old(clientConnections) - {t.uuid}
      requires t.kind == TypeServer ==> t.uuid !in serverConnections
      requires t.kind == TypeClient ==> t.uuid !in clientConnections
      ensures SocketsHeld()
    {
      SocketGoneValue(t);
      forall u | u in serverConnections ensures ServerHeld(u) {
        assert old(ServerHeld(u));
      }
      forall c | c in clientConnections ensures ClientHeld(c) {
        assert old(ClientHeld(c));
      }
      forall id | id in known ensures SlipFits(id) {
        assert old(SlipFits(id));
      }
    }

    twostate lemma TablesStillPoint()
      requires old(ServersPoint() && ClientsPoint()) && SameServers() && SameClients()
      ensures ServersPoint() && ClientsPoint()
    {
      forall u | u in serverConnections ensures ServerPoints(u) {
        assert old(ServerPoints(u));
      }
      forall c | c in clientConnections ensures ClientPoints(c) {
        assert old(ClientPoints(c));
      }
    }

    twostate lemma SocketGoneValid(t: TunnelProxyClient)
      requires old(Valid()) && old(IsListed(t)) && SocketGone(t) && SameServers() && SameClients()
      requires t.kind == TypeServer ==> t.uuid !in serverConnections
      requires t.kind == TypeClient ==> t.uuid !in clientConnections
      ensures Valid()
    {
      SocketGoneValue(t);
      SocketGoneHeld(t);
      TablesStillPoint();
    }

    twostate lemma SocketGoneStep(t: TunnelProxyClient)
      requires old(Valid()) && old(IsListed(t)) && SocketGone(t) && SameServers() && SameClients() && SameCounters()
      requires unchanged(this`notificationId) && log == old(log) + [Closed(t.clientId)]
      requires t.kind == TypeServer ==> t.uuid !in serverConnections
      requires t.kind == TypeClient ==> t.uuid !in clientConnections
      ensures Valid() && Value() == Disconnect(old(Value()), t.clientId)
    {
      SocketGoneValid(t);
      SocketGoneValue(t);
      SameTables();
      UnlistedIsDisconnect(Value(), old(Value()), t.clientId);
    }

    // a server's socket

    /** The clients of server connection s are unregistered and killed one by one. */
    method UnregisterClients(s: TunnelProxyServerConnection)
      requires forall c :: c in s.clientConnections ==> s.clientConnections[c].clientUuid == c
      modifies s, s.clientConnections.Values, this`log
      ensures forall c :: c in old(s.clientConnections) ==> IsOrphan(old(s.clientConnections[c]))
      ensures forall c :: c in old(s.clientConnections) ==>
                old(s.clientConnections[c]).fed == old(s.clientConnections[c].fed)
      ensures log == old(log) + [Killed(old(MemberIds(s)))]
    {
      var members := s.clientConnections;
      var pending := members.Keys;
      ghost var killed: set<ClientId> := {};
      while pending != {}
        invariant pending <= members.Keys && unchanged(this`log)
        invariant forall c :: c in members ==> members[c].fed == old(members[c].fed)
        invariant forall c :: c in members && c !in pending ==> IsOrphan(members[c])
        invariant killed == set c | c in members && c !in pending :: members[c].transportClient.clientId
      {
        var c :| c in pending;
        s.UnregisterClientConnection(members[c]);
        killed := killed + {members[c].transportClient.clientId};
        pending := pending - {c};
      }
      assert killed == set c | c in members :: members[c].transportClient.clientId;
      log := log + [Killed(killed)];
    }

    ghost predicate IsOrphan(cc: TunnelProxyClientConnection)
      reads cc
    {
      cc.serverConnection == null && cc.socketAddress == NO_ADDRESS && cc.Valid()
    }

    twostate predicate ServerGone(t: TunnelProxyClient)
      reads this`serverConnections, this`clientConnections, serverConnections.Values, clientConnections.Values, t
    {
      && t.uuid == old(t.uuid) && t.uuid in old(serverConnections)
         && serverConnections == old(serverConnections) - {t.uuid}
      && (forall u :: u in serverConnections ==> unchanged(serverConnections[u]))
      && unchanged(this`clientConnections)
      && var s := old(serverConnections)[t.uuid];
         forall c :: c in clientConnections ==>
           if c in old(s.clientConnections)
           then IsOrphan(clientConnections[c]) && clientConnections[c].fed == old(clientConnections[c].fed)
           else unchanged(clientConnections[c])
    }

    twostate lemma ServerGoneValue(t: TunnelProxyClient)
      requires ServerGone(t)
      ensures Servers() == old(Servers()) - {t.uuid}
      ensures t.uuid in old(Servers())
      ensures Clients() == map c | c in old(Clients()) ::
                if c in old(Servers())[t.uuid].byUuid then Orphan(old(Clients())[c]) else old(Clients())[c]
    {
    }

    /** Clients of other servers are left alone. */
    twostate lemma ServerGoneSpares(t: TunnelProxyClient)
      requires old(ServersPoint()) && ServerGone(t)
      ensures old(serverConnections[t.uuid]).serverUuid == t.uuid
      ensures forall c | c in clientConnections ::
                old(clientConnections[c].serverConnection) != old(serverConnections[t.uuid]) ==>
                  unchanged(clientConnections[c])
    {
      assert old(ServerPoints(t.uuid));
    }

    twostate lemma ServerGonePoints(t: TunnelProxyClient)
      requires old(ServersPoint() && ClientsPoint()) && ServerGone(t)
      ensures ServersPoint() && ClientsPoint()
    {
      ServerGoneSpares(t);
      forall u | u in serverConnections ensures ServerPoints(u) {
        assert old(ServerPoints(u));
        assert serverConnections[u] != old(serverConnections[t.uuid]);
      }
      forall c | c in clientConnections ensures ClientPoints(c) {
        assert old(ClientPoints(c));
      }
    }

    ghost function MemberIds(s: TunnelProxyServerConnection): set<ClientId>
      reads s
    {
      set c | c in s.clientConnections :: s.clientConnections[c].transportClient.clientId
    }

    twostate lemma ServerGoneStep(t: TunnelProxyClient)
      requires old(Valid()) && old(IsListed(t)) && t.kind == TypeServer && SocketGone(t) && ServerGone(t)
      requires SameCounters() && unchanged(this`notificationId)
      requires log == old(log) + [Closed(t.clientId)] + [Killed(old(MemberIds(serverConnections[t.uuid])))]
      ensures Valid() && Value() == Disconnect(old(Value()), t.clientId)
    {
      SocketGoneValue(t);
      SocketGoneHeld(t);
      ServerGonePoints(t);
      ServerGoneValue(t);
      MembersWere(t);
      DroppedIsDisconnect(Value(), old(Value()), t.clientId);
    }

    twostate lemma MembersWere(t: TunnelProxyClient)
      requires old(ServersPoint()) && t.uuid == old(t.uuid) && t.uuid in old(serverConnections)
      ensures t.uuid in old(Servers())
      ensures old(MemberIds(serverConnections[t.uuid]))
              == MembersOf(old(Clients()), old(Servers())[t.uuid].byUuid)
    {
      assert old(ServerPoints(t.uuid));
    }

    /** Every connection stands under its own uuid. */
    ghost predicate UnderOwnUuids()
      reads this`serverConnections, this`clientConnections, serverConnections.Values
    {
      && (forall u :: u in serverConnections ==> serverConnections[u].serverUuid == u)
      && (forall c :: c in clientConnections ==> clientConnections[c].clientUuid == c)
      && (forall u, c :: u in serverConnections && c in serverConnections[u].clientConnections ==>
            c in clientConnections && clientConnections[c] == serverConnections[u].clientConnections[c])
    }

    lemma OwnUuids()
      requires ServersPoint() && ClientsPoint()
      ensures UnderOwnUuids()
    {
      assert forall u :: u in serverConnections ==> ServerPoints(u);
      assert forall c :: c in clientConnections ==> ClientPoints(c);
    }

    lemma MembersUnderOwnUuids(u: Uuid)
      requires UnderOwnUuids() && u in serverConnections
      ensures forall c :: c in serverConnections[u].clientConnections ==>
                serverConnections[u].clientConnections[c].clientUuid == c
    {
      forall c | c in serverConnections[u].clientConnections
        ensures serverConnections[u].clientConnections[c].clientUuid == c
      {
        assert clientConnections[c] == serverConnections[u].clientConnections[c];
      }
    }

    method DropServer(t: TunnelProxyClient)
      requires UnderOwnUuids() && IsListed(t) && t.uuid in serverConnections
      modifies this`proxyClients, this`jsonClients, this`serverConnections, this`log
      modifies serverConnections[t.uuid], serverConnections[t.uuid].clientConnections.Values
      ensures SocketGone(t) && ServerGone(t)
      ensures log == old(log) + [Closed(t.clientId)] + [Killed(old(MemberIds(serverConnections[t.uuid])))]
    {
      MembersUnderOwnUuids(t.uuid);
      var serverConnection := serverConnections[t.uuid];
      proxyClients := proxyClients - {t.clientId};
      log := log + [Closed(t.clientId)];
      serverConnections := serverConnections - {t.uuid};
      UnregisterClients(serverConnection);
      jsonClients := jsonClients - {t};
    }

    // a client's socket

    twostate predicate ClientTaken(t: TunnelProxyClient)
      reads this`clientConnections, clientConnections.Values, t
    {
      && t.uuid == old(t.uuid) && t.uuid in old(clientConnections)
         && clientConnections == old(clientConnections) - {t.uuid}
      && (forall c :: c in clientConnections ==> unchanged(clientConnections[c]))
    }

    twostate predicate ClientGone(t: TunnelProxyClient)
      reads this`serverConnections, this`clientConnections, serverConnections.Values, clientConnections.Values, t
    {
      && ClientTaken(t) && unchanged(this`serverConnections)
      && var cc := old(clientConnections)[t.uuid];
         cc.clientUuid == t.uuid
         && if old(cc.serverConnection) == null
            then forall u :: u in serverConnections ==> unchanged(serverConnections[u])
            else ClientDetached(cc)
    }

    twostate predicate ClientDetached(cc: TunnelProxyClientConnection)
      requires unchanged(this`serverConnections) && old(cc.serverConnection) != null
      reads this`serverConnections, serverConnections.Values
    {
      var s := old(cc.serverConnection);
      && s.serverUuid in serverConnections && serverConnections[s.serverUuid] == s
      && serverConnections[s.serverUuid].Value() == Detach(old(s.Value()), cc.clientUuid, old(cc.socketAddress))
      && serverConnections[s.serverUuid].clientConnections == old(s.clientConnections) - {cc.clientUuid}
      && serverConnections[s.serverUuid].clientConnectionsAddresses
         == old(s.clientConnectionsAddresses) - {old(cc.socketAddress)}
      && (forall u :: u in serverConnections && u != s.serverUuid ==> unchanged(serverConnections[u]))
    }

    twostate lemma ClientGoneValue(t: TunnelProxyClient)
      requires ClientGone(t)
      ensures Clients() == old(Clients()) - {t.uuid}
      ensures t.uuid in old(Clients())
      ensures var c := old(Clients())[t.uuid];
              match c.server
              case None => Servers() == old(Servers())
              case Some(u) =>
                && u in old(Servers())
                && Servers() == old(Servers())[u := Detach(old(Servers())[u], t.uuid, c.address)]
    {
    }

    /** The indexes of no server hold client c any more, and nothing they did not hold before. */
    twostate predicate Forgotten(c: Uuid)
      requires unchanged(this`serverConnections)
      reads this`serverConnections, serverConnections.Values
    {
      forall u :: u in serverConnections ==>
        var s := serverConnections[u];
        && s.serverUuid == u && c !in s.clientConnections
        && (forall d :: d in s.clientConnections ==>
            d in old(s.clientConnections) && s.clientConnections[d] == old(s.clientConnections[d]))
        && (forall a :: a in s.clientConnectionsAddresses ==>
              a in old(s.clientConnectionsAddresses)
                  && s.clientConnectionsAddresses[a] == old(s.clientConnectionsAddresses[a])
              && s.clientConnectionsAddresses[a].clientUuid != c)
    }

    twostate lemma ClientGoneForgotten(t: TunnelProxyClient)
      requires old(ServersPoint()) && ClientGone(t)
      ensures Forgotten(t.uuid)
    {
      forall u | u in serverConnections ensures old(ServerPoints(u)) {
      }
    }

    twostate lemma ClientGonePoints(t: TunnelProxyClient)
      requires old(ServersPoint() && ClientsPoint()) && ClientGone(t)
      ensures ServersPoint() && ClientsPoint()
    {
      ClientGoneForgotten(t);
      ClientGoneServersPoint(t);
      forall c | c in clientConnections ensures ClientPoints(c) {
        assert old(ClientPoints(c));
      }
    }

    twostate lemma ClientGoneServersPoint(t: TunnelProxyClient)
      requires old(ServersPoint()) && ClientTaken(t) && unchanged(this`serverConnections) && Forgotten(t.uuid)
      ensures ServersPoint()
    {
      forall u | u in serverConnections ensures ServerPoints(u) {
        assert old(ServerPoints(u));
      }
    }

    /** The socket of a client has gone, with the client, and its server has been told. */
    twostate predicate ClientClosed(t: TunnelProxyClient)
      reads this, known.Values, serverConnections.Values, clientConnections.Values, t
    {
      && SocketGone(t) && ClientGone(t)
      && var cc := old(clientConnections)[t.uuid];
         if old(cc.serverConnection) == null
         then log == old(log) + [Closed(t.clientId)] && unchanged(this`notificationId)
         else log == old(log) + [Closed(t.clientId)]
                     + [old(Told(cc.serverConnection.transportClient,
                                 ClientDisconnected(notificationId, cc.socketAddress)))]
              && notificationId == old(notificationId) + 1
    }

    twostate lemma ClientGoneValid(t: TunnelProxyClient)
      requires old(Valid()) && old(IsListed(t)) && t.kind == TypeClient && ClientClosed(t)
      ensures Valid()
    {
      SocketGoneValue(t);
      SocketGoneHeld(t);
      ClientGonePoints(t);
    }

    twostate lemma OrphanGoneStep(t: TunnelProxyClient)
      requires old(Valid()) && old(IsListed(t)) && t.kind == TypeClient && ClientClosed(t) && SameCounters()
      requires old(clientConnections[t.uuid].serverConnection) == null
      ensures Value() == Disconnect(old(Value()), t.clientId)
    {
      SocketGoneValue(t);
      ClientGoneValue(t);
      ClientGoneTold(t);
      OrphanIsDisconnect(Value(), old(Value()), t.clientId);
    }

    /** The server of the client that has gone, and what it was told. */
    twostate lemma MemberGoneLog(t: TunnelProxyClient)
      requires old(Valid()) && old(IsListed(t)) && old(t.kind) == TypeClient && ClientClosed(t)
      requires old(clientConnections[t.uuid].serverConnection) != null
      ensures t.uuid in old(Clients())
      ensures var c, u := old(Clients())[t.uuid], old(clientConnections[t.uuid].serverConnection.serverUuid);
              && c.server == Some(u) && u in old(Servers()) && old(Servers())[u].transport != t.clientId
              && notificationId == old(notificationId) + 1
              && log == old(log) + [Closed(t.clientId)]
                 + [Letter(old(Value()), old(Servers())[u].transport,
                           ClientDisconnected(old(notificationId), c.address))]
    {
      ClientGoneTold(t);
    }

    twostate lemma MemberGoneStep(t: TunnelProxyClient)
      requires old(Valid()) && old(IsListed(t)) && t.kind == TypeClient && ClientClosed(t) && SameCounters()
      requires old(clientConnections[t.uuid].serverConnection) != null
      ensures Value() == Disconnect(old(Value()), t.clientId)
    {
      SocketGoneValue(t);
      ClientGoneValue(t);
      MemberGoneLog(t);
      MemberIsDisconnect(Value(), old(Value()), t.clientId, old(clientConnections[t.uuid].serverConnection.serverUuid));
    }

    twostate lemma ClientGoneTold(t: TunnelProxyClient)
      requires old(Valid()) && ClientTaken(t) && old(IsListed(t)) && old(t.kind) == TypeClient
      ensures var cc := old(clientConnections)[t.uuid];
              t.uuid in old(Clients()) && old(Clients())[t.uuid] == old(cc.Value()) &&
              (old(cc.serverConnection) != null ==>
                var s := old(cc.serverConnection);
                && s.serverUuid in old(Servers())
                   && old(Servers())[s.serverUuid].transport == s.transportClient.clientId
                && s.transportClient.clientId in old(Transports()) && s.transportClient.clientId != t.clientId
                && old(Transports())[s.transportClient.clientId] == old(s.transportClient.Value(true)))
    {
      if old(clientConnections[t.uuid].serverConnection) != null {
        assert old(ClientPoints(t.uuid));
        assert old(ServerHeld(clientConnections[t.uuid].serverConnection.serverUuid));
      }
    }

    /** The server of client connection c forgets it and is told. */
    method LeaveServer(c: TunnelProxyClientConnection)
      requires c.serverConnection != null
      modifies this`notificationId, this`log, c`serverConnection, c`serverUuid, c`socketAddress, c.serverConnection
      ensures var s: TunnelProxyServerConnection := old(c.serverConnection);
              && s.Value() == Detach(old(s.Value()), c.clientUuid, old(c.socketAddress))
              && s.clientConnections == old(s.clientConnections) - {c.clientUuid}
              && s.clientConnectionsAddresses == old(s.clientConnectionsAddresses) - {old(c.socketAddress)}
              && log == old(log) + [old(Told(s.transportClient, ClientDisconnected(notificationId, c.socketAddress)))]
      ensures notificationId == old(notificationId) + 1
    {
      var serverConnection := c.serverConnection;
      var socketAddress := c.socketAddress;
      serverConnection.UnregisterClientConnection(c);
      var id := notificationId;
      notificationId := notificationId + 1;
      SendControl(serverConnection.transportClient, ClientDisconnected(id, socketAddress));
    }

    method DropMember(t: TunnelProxyClient)
      requires UnderOwnUuids() && t.uuid in clientConnections
      requires clientConnections[t.uuid].serverConnection != null
      requires clientConnections[t.uuid].serverConnection in serverConnections.Values
      modifies this`proxyClients, this`jsonClients, this`clientConnections, this`notificationId, this`log
      modifies clientConnections[t.uuid], clientConnections[t.uuid].serverConnection
      ensures ClientClosed(t)
    {
      var clientConnection := clientConnections[t.uuid];
      proxyClients := proxyClients - {t.clientId};
      log := log + [Closed(t.clientId)];
      clientConnections := clientConnections - {t.uuid};
      LeaveServer(clientConnection);
      jsonClients := jsonClients - {t};
    }

    /** A client whose server has gone before. */
    method DropOrphan(t: TunnelProxyClient)
      requires UnderOwnUuids() && t.uuid in clientConnections && clientConnections[t.uuid].serverConnection == null
      modifies this`proxyClients, this`jsonClients, this`clientConnections, this`log
      ensures ClientClosed(t)
    {
      proxyClients := proxyClients - {t.clientId};
      log := log + [Closed(t.clientId)];
      clientConnections := clientConnections - {t.uuid};
      jsonClients := jsonClients - {t};
    }

    method DropSocket(t: TunnelProxyClient)
      modifies this`proxyClients, this`jsonClients, this`log
      ensures SocketGone(t) && log == old(log) + [Closed(t.clientId)]
    {
      proxyClients := proxyClients - {t.clientId};
      log := log + [Closed(t.clientId)];
      jsonClients := jsonClients - {t};
    }

    method OnServerSocketClosed(t: TunnelProxyClient)
      requires Valid() && IsListed(t) && t.kind == TypeServer && t.uuid in serverConnections
      modifies Repr
      ensures Valid() && unchanged(this`Repr, this`known) && Value() == Disconnect(old(Value()), t.clientId)
    {
      OwnUuids();
      assert ServerPoints(t.uuid);
      DropServer(t);
      ServerGoneStep(t);
    }

    method OnClientSocketClosed(t: TunnelProxyClient)
      requires Valid() && IsListed(t) && t.kind == TypeClient && t.uuid in clientConnections
      modifies Repr
      ensures Valid() && unchanged(this`Repr, this`known) && Value() == Disconnect(old(Value()), t.clientId)
    {
      if clientConnections[t.uuid].serverConnection != null {
        OnMemberSocketClosed(t);
      } else {
        OwnUuids();
        DropOrphan(t);
        ClientGoneValid(t);
        OrphanGoneStep(t);
      }
    }

    method OnMemberSocketClosed(t: TunnelProxyClient)
      requires Valid() && IsListed(t) && t.kind == TypeClient && t.uuid in clientConnections
      requires clientConnections[t.uuid].serverConnection != null
      modifies Repr
      ensures Valid() && unchanged(this`Repr, this`known) && Value() == Disconnect(old(Value()), t.clientId)
    {
      OwnUuids();
      assert ClientPoints(t.uuid);
      DropMember(t);
      ClientGoneValid(t);
      MemberGoneStep(t);
    }

    method OnClientDisconnected(clientId: ClientId)
      requires Valid()
      modifies Repr
      ensures Valid() && unchanged(this`Repr, this`known) && Value() == Disconnect(old(Value()), clientId)
    {
      if clientId !in proxyClients {
        ValueReads(clientId);
        return;
      }
      var t := proxyClients[clientId];
      if t.kind == TypeServer && t.uuid in serverConnections {
        OnServerSocketClosed(t);
      } else if t.kind == TypeClient && t.uuid in clientConnections {
        OnClientSocketClosed(t);
      } else {
        DropSocket(t);
        SocketGoneStep(t);
      }
    }

    method OnClientsDisconnected(clientIds: seq<ClientId>)
      requires Valid()
      modifies Repr
      ensures Valid() && unchanged(this`Repr, this`known) && Value() == DisconnectAll(old(Value()), clientIds)
    {
      for i := 0 to |clientIds|
        invariant Valid() && unchanged(this`Repr, this`known) && Value() == DisconnectAll(old(Value()), clientIds[..i])
      {
        assert clientIds[..i + 1][..i] == clientIds[..i];
        OnClientDisconnected(clientIds[i]);
      }
      assert clientIds[..|clientIds|] == clientIds;
    }

    // -------------------------------------------------------------- data

    /** A client's history grew, and no table and no other object changed. */
    twostate predicate OnlyFed(cc: TunnelProxyClientConnection)
      reads this`known, this`proxyClients, this`jsonClients, this`Repr, this`serverConnections, this`clientConnections,
        known.Values, serverConnections.Values, clientConnections.Values, cc
    {
      && unchanged(this`known, this`proxyClients, this`jsonClients, this`Repr, this`clientConnections)
      && (forall id :: id in known ==> unchanged(known[id])) && SameServers()
      && cc.clientUuid in clientConnections && clientConnections[cc.clientUuid] == cc
      && (forall c :: c in clientConnections && c != cc.clientUuid ==> unchanged(clientConnections[c]))
      && unchanged(cc`serverConnection, cc`serverUuid, cc`socketAddress)
    }

    twostate lemma FedPoints(cc: TunnelProxyClientConnection)
      requires old(ServersPoint() && ClientsPoint()) && OnlyFed(cc)
      ensures ServersPoint() && ClientsPoint()
    {
      forall u | u in serverConnections ensures ServerPoints(u) {
        assert old(ServerPoints(u));
      }
      forall c | c in clientConnections ensures ClientPoints(c) {
        assert old(ClientPoints(c));
      }
    }

    twostate lemma FedHeld(cc: TunnelProxyClientConnection)
      requires old(SocketsHeld()) && OnlyFed(cc)
      ensures SocketsHeld()
    {
      forall u | u in serverConnections ensures ServerHeld(u) {
        assert old(ServerHeld(u));
      }
      forall c | c in clientConnections ensures ClientHeld(c) {
        assert old(ClientHeld(c));
      }
      forall id | id in known ensures SlipFits(id) {
        assert old(SlipFits(id));
      }
    }

    twostate lemma FedValue(cc: TunnelProxyClientConnection)
      requires OnlyFed(cc)
      ensures Transports() == old(Transports()) && Servers() == old(Servers())
      ensures cc.clientUuid in old(Clients()) && old(Clients())[cc.clientUuid] == old(cc.Value())
      ensures Clients() == old(Clients())[cc.clientUuid := old(cc.Value()).(fed := cc.fed)]
    {
    }

    twostate lemma FedStep(cc: TunnelProxyClientConnection)
      requires old(Valid()) && OnlyFed(cc) && unchanged(this`troughput, this`notificationId)
      ensures Valid() && cc.clientUuid in old(Value()).clients && old(Value()).clients[cc.clientUuid] == old(cc.Value())
      ensures Value() == old(Value()).(log := log, troughputCounter := troughputCounter,
                clients := old(Value()).clients[cc.clientUuid := old(cc.Value()).(fed := cc.fed)])
    {
      FedPoints(cc);
      FedHeld(cc);
      FedValue(cc);
    }

    /** A client's chunk, framed with its address, on its way to the server. */
    method Tunnelled(clientConnection: TunnelProxyClientConnection, data: bytes)
      requires clientConnection.clientUuid in clientConnections
      requires clientConnections[clientConnection.clientUuid] == clientConnection
      requires forall c :: c in clientConnections ==> clientConnections[c].clientUuid == c
      requires clientConnection.serverConnection != null
      modifies this`log, this`troughputCounter, clientConnection`fed
      ensures OnlyFed(clientConnection) && clientConnection.fed == old(clientConnection.fed) + [data]
      ensures log == old(log) + [Sent(clientConnection.serverConnection.transportClient.clientId,
                                      Tunnel(clientConnection.socketAddress, data))]
      ensures troughputCounter == old(troughputCounter) + |data|
    {
      var frame := SlipDataProcessor.BuildFrame(SlipDataProcessor.Frame(clientConnection.socketAddress, data));
      var rawData := SlipDataProcessor.SerializeData(frame);
      SendData(clientConnection.serverConnection.transportClient, rawData,
               Tunnel(clientConnection.socketAddress, data));
      troughputCounter := troughputCounter + |data|;
      clientConnection.fed := clientConnection.fed + [data];
    }

    /** The server of client c, in the objects and in the value. */
    lemma TunnelReads(c: Uuid)
      requires Valid() && c in clientConnections && clientConnections[c].serverConnection != null
      ensures var cc, r := clientConnections[c], Value();
              && c in r.clients && r.clients[c] == cc.Value() && cc.serverConnection.serverUuid in r.servers
              && r.servers[cc.serverConnection.serverUuid].transport == cc.serverConnection.transportClient.clientId
    {
      AttachmentReads(c);
    }

    method TunnelData(clientConnection: TunnelProxyClientConnection, data: bytes)
      requires Valid() && clientConnection.clientUuid in clientConnections
      requires clientConnections[clientConnection.clientUuid] == clientConnection
      requires clientConnection.serverConnection != null
      modifies this`log, this`troughputCounter, clientConnection`fed
      ensures Valid() && unchanged(this`Repr, this`known)
      ensures var r: State, c := old(Value()), clientConnection.clientUuid;
              && c in r.clients && r.clients[c].server.Some? && r.clients[c].server.value in r.servers
              && Value() == TunnelChunk(r, c, r.clients[c].server.value, data)
    {
      OwnUuids();
      TunnelReads(clientConnection.clientUuid);
      Tunnelled(clientConnection, data);
      FedStep(clientConnection);
      FedIsTunnelChunk(Value(), old(Value()), clientConnection.clientUuid, data);
    }

    method OnClientSocketData(t: TunnelProxyClient, data: bytes)
      requires Valid()
      modifies Repr
      ensures Valid() && fresh(Repr - old(Repr)) && unchanged(this`Repr, this`known)
      ensures Value() == ReceiveTunnel(old(Value()), t.uuid, data)
    {
      if t.uuid !in clientConnections {
        return;
      }
      var clientConnection := clientConnections[t.uuid];
      assert Clients()[t.uuid] == clientConnection.Value() && ClientPoints(t.uuid);
      if clientConnection.serverConnection == null {
        return;
      }
      TunnelData(clientConnection, data);
    }

    /** The payload of a frame goes to the client at address a of server u. */
    method ForwardData(u: Uuid, a: u16, data: bytes)
      requires Valid() && u in serverConnections && a in serverConnections[u].clientConnectionsAddresses
      modifies this`log, this`troughputCounter
      ensures Valid() && unchanged(this`Repr, this`known)
      ensures var r: State := old(Value());
              && u in r.servers && a in r.servers[u].byAddress
              && Value() == ForwardPayload(r, r.servers[u].byAddress[a], data)
    {
      AddressReads(u, a);
      ghost var r := Value();
      ghost var c := r.servers[u].byAddress[a];
      var clientConnection := serverConnections[u].clientConnectionsAddresses[a];
      SendData(clientConnection.transportClient, data, Forward(data));
      troughputCounter := troughputCounter + |data|;
      LoggedStep();
      SentIsForwarded(Value(), r, c, data);
    }

    method OnServerFrame(t: TunnelProxyClient, frameData: bytes)
      requires Valid() && Known(t)
      modifies Repr
      ensures Valid() && fresh(Repr - old(Repr)) && unchanged(this`known)
      ensures Value() == HandleFrame(read, old(Value()), t.clientId, frameData)
    {
      var frame := SlipDataProcessor.ParseFrame(frameData);
      if frame.socketAddress == 0x0000 {
        ProcessDataPacket(t, frame.data);
        return;
      }
      RouteServerFrame(t, frame);
    }

    /** A frame for a client. */
    method RouteServerFrame(t: TunnelProxyClient, frame: SlipDataProcessor.Frame)
      requires Valid() && Known(t)
      modifies this`log, this`troughputCounter
      ensures Valid() && fresh(Repr - old(Repr)) && unchanged(this`Repr, this`known)
      ensures Value() == RouteFrame(old(Value()), t.clientId, frame)
    {
      SocketReads(t);
      if t.uuid !in serverConnections {
        return;
      }
      assert Servers()[t.uuid] == serverConnections[t.uuid].Value();
      if frame.socketAddress !in serverConnections[t.uuid].clientConnectionsAddresses {
        return;
      }
      ForwardData(t.uuid, frame.socketAddress, frame.data);
    }

    /** One item, and the disconnects that land while it is handled. */
    method ProcessItem(t: TunnelProxyClient, item: bytes, slip: bool, gone: seq<ClientId>)
      requires Valid() && Known(t)
      modifies Repr
      ensures Valid() && fresh(Repr - old(Repr)) && unchanged(this`known)
      ensures Value() == HandleItem(read, old(Value()), t.clientId, item, slip, gone)
    {
      if slip {
        OnServerFrame(t, item);
      } else {
        ProcessDataPacket(t, item);
      }
      OnClientsDisconnected(gone);
    }

    /** These items of socket t have been handled since the value was r. */
    ghost predicate HasHandled(t: TunnelProxyClient, items: seq<bytes>, slip: bool, hangups: seq<seq<ClientId>>,
                               r: State)
      reads this, known.Values, serverConnections.Values, clientConnections.Values
    {
      Valid() && Known(t) && Value() == HandleItems(read, r, t.clientId, items, slip, hangups)
    }

    /** One item after those that are done since the value was r. */
    method ProcessNextItem(t: TunnelProxyClient, item: bytes, slip: bool, hangups: seq<seq<ClientId>>,
                           i: nat, ghost r: State, ghost done: seq<bytes>)
      requires i == |done| && HasHandled(t, done, slip, hangups, r)
      modifies Repr
      ensures HasHandled(t, done + [item], slip, hangups, r) && fresh(Repr - old(Repr)) && unchanged(this`known)
    {
      ProcessItem(t, item, slip, Hangups(hangups, i));
      ItemsOneMore(read, r, t.clientId, done, item, slip, hangups);
    }

    /** The items of one chunk in order. */
    method ProcessItems(t: TunnelProxyClient, items: seq<bytes>, slip: bool, hangups: seq<seq<ClientId>>)
      requires Valid() && Known(t)
      modifies Repr
      ensures Valid() && fresh(Repr - old(Repr)) && unchanged(this`known)
      ensures Value() == HandleItems(read, old(Value()), t.clientId, items, slip, hangups)
    {
      ghost var r := Value();
      ghost var done: seq<bytes> := [];
      for i := 0 to |items|
        invariant IsPrefix(items, i, done) && fresh(Repr - old(Repr)) && unchanged(this`known)
        invariant HasHandled(t, done, slip, hangups, r)
      {
        ghost var before := Repr;
        ProcessNextItem(t, items[i], slip, hangups, i, r, done);
        NewSince(Repr, before, old(Repr));
        PrefixOneMore(items, i, done);
        done := done + [items[i]];
      }
      PrefixIsAll(items, done);
    }

    method CutPackets(t: TunnelProxyClient, data: bytes) returns (packets: seq<bytes>)
      requires Valid() && Known(t) && !t.slipEnabled
      modifies t`dataBuffer
      ensures Valid() && unchanged(this`Repr)
      ensures var in' := JsonStream.Ingest(old(t.dataBuffer), data);
              && packets == in'.Packets() && t.dataBuffer == in'.buffer
              && Value() == WithBuffer(old(Value()), t.clientId, in'.buffer)
    {
      SocketReads(t);
      packets := t.ProcessData(data);
      FlagsChangedStep(t);
    }

    /** JsonRpcServer::processData. */
    method ProcessJsonData(t: TunnelProxyClient, data: bytes, hangups: seq<seq<ClientId>>)
      requires Valid() && Known(t) && !t.slipEnabled
      modifies Repr
      ensures Valid() && fresh(Repr - old(Repr))
      ensures Value() == ReceiveJson(read, old(Value()), t.clientId, data, hangups)
    {
      SocketReads(t);
      JsonReads(t);
      if t !in jsonClients {
        return;
      }
      var packets := CutPackets(t, data);
      ProcessPackets(t, packets, hangups);
    }

    lemma JsonReads(t: TunnelProxyClient)
      requires KnowsSockets() && Known(t)
      ensures t in jsonClients <==> t.clientId in JsonIds()
    {
    }

    /** Too much left in the buffer is the end of the connection. */
    method ProcessPackets(t: TunnelProxyClient, packets: seq<bytes>, hangups: seq<seq<ClientId>>)
      requires Valid() && Known(t)
      modifies Repr
      ensures Valid() && fresh(Repr - old(Repr))
      ensures Value() == if |old(t.dataBuffer)| > MAX_BUFFER then Registry.Kill(old(Value()), t.clientId)
                         else HandleItems(read, old(Value()), t.clientId, packets, false, hangups)
    {
      if |t.dataBuffer| > MAX_BUFFER {
        Kill(t);
        return;
      }
      ProcessItems(t, packets, false, hangups);
    }

    method CutFrames(t: TunnelProxyClient, data: bytes) returns (frames: seq<bytes>)
      requires Valid() && Known(t) && t.slipEnabled
      modifies t`dataBuffer
      ensures Valid() && unchanged(this`Repr)
      ensures var s := Framing.Assemble(old(t.dataBuffer), data);
              frames == s.frames && Value() == WithBuffer(old(Value()), t.clientId, s.buffer)
    {
      SocketReads(t);
      frames := t.ProcessData(data);
      FlagsChangedStep(t);
    }

    method ProcessSlipData(t: TunnelProxyClient, data: bytes, hangups: seq<seq<ClientId>>)
      requires Valid() && Known(t) && t.slipEnabled
      modifies Repr
      ensures Valid() && fresh(Repr - old(Repr))
      ensures Value() == ReceiveSlip(read, old(Value()), t.clientId, data, hangups)
    {
      SocketReads(t);
      var frames := CutFrames(t, data);
      ProcessItems(t, frames, true, hangups);
    }

    method OnClientDataAvailable(clientId: ClientId, data: bytes, hangups: seq<seq<ClientId>>)
      requires Valid()
      modifies Repr
      ensures Valid() && fresh(Repr - old(Repr))
      ensures Value() == Receive(read, old(Value()), clientId, data, hangups)
      ensures RegistryInvariant.Tables(old(Value())) && Listed(old(Value()), clientId) ==>
                RegistryAnswers.IsHeard(read, old(Value()), Value(), clientId, data)
    {
      ghost var r := Value();
      if RegistryInvariant.Tables(r) && Listed(r, clientId) {
        RegistryAnswers.ChunkIsHeard(read, r, Data(clientId, data, hangups));
      }
      ValueReads(clientId);
      if clientId !in proxyClients {
        return;
      }
      var t := proxyClients[clientId];
      OnDataOf(t, data, hangups);
    }

    /** A chunk of a listed socket, by its type and mode. */
    method OnDataOf(t: TunnelProxyClient, data: bytes, hangups: seq<seq<ClientId>>)
      requires Valid() && IsListed(t)
      modifies Repr
      ensures Valid() && fresh(Repr - old(Repr))
      ensures Value() == Receive(read, old(Value()), t.clientId, data, hangups)
    {
      SocketReads(t);
      assert SlipFits(t.clientId);
      if t.kind == TypeClient {
        OnClientSocketData(t, data);
      } else if t.kind == TypeServer && t.slipEnabled {
        ProcessSlipData(t, data, hangups);
      } else {
        ProcessJsonData(t, data, hangups);
      }
    }

    method Tick()
      requires Valid()
      modifies Repr
      ensures Valid() && unchanged(this`Repr) && Value() == Publish(old(Value()))
    {
      troughput := troughputCounter;
      log := log + [Published(troughputCounter)];
      troughputCounter := 0;
      LoggedStep();
    }

    /** The inactivity timer of a socket. */
    method OnInactive(clientId: ClientId)
      requires Valid()
      modifies this`log
      ensures Valid() && Value() == Registry.Kill(old(Value()), clientId)
    {
      log := log + [Killed({clientId})];
      LoggedStep();
    }

    method HandleEvent(e: Event)
      requires Valid()
      modifies Repr
      ensures Valid() && fresh(Repr - old(Repr)) && Value() == Step(read, old(Value()), e)
    {
      match e
      case Connected(id, peer) => OnClientConnected(id, peer);
      case Disconnected(id) => OnClientDisconnected(id);
      case Data(id, data, hangups) => OnClientDataAvailable(id, data, hangups);
      case Inactive(id) => OnInactive(id);
      case Tick => Tick();
    }
  }

  /** The tables after a client was attached. */
  ghost predicate TablesAttach(transports': map<ClientId, Transport>, servers': map<Uuid, ServerConnection>,
                               clients': map<Uuid, ClientConnection>, transports: map<ClientId, Transport>,
                               servers: map<Uuid, ServerConnection>, clients: map<Uuid, ClientConnection>,
                               id: ClientId, c: Uuid, name: string, u: Uuid) {
    && id in transports && u in servers && u in servers' && c in clients'
    && transports' == transports[id := transports[id].(kind := TypeClient, uuid := c, name := name)]
    && Attached(servers'[u], servers[u], c, clients'[c].address)
    && servers' == servers[u := servers'[u]]
    && clients' == clients[c := ClientConnection(id, Some(u), clients'[c].address, [])]
  }

  ghost predicate IsAttach(r': State, r: State, id: ClientId, c: Uuid, name: string, u: Uuid) {
    && TablesAttach(r'.transports, r'.servers, r'.clients, r.transports, r.servers, r.clients, id, c, name, u)
    && r' == r.(transports := r'.transports, servers := r'.servers, clients := r'.clients)
  }

  /** Only the clients, the traffic counter, the notification counter and the log may differ. */
  predicate SameElsewhere(r': State, r: State) {
    && r'.transports == r.transports && r'.jsonClients == r.jsonClients && r'.servers == r.servers
    && r'.troughput == r.troughput
  }

  ghost predicate CanAnnounce(r: State, c: Uuid) {
    && c in r.clients && r.clients[c].server.Some? && r.clients[c].server.value in r.servers
    && r.clients[c].transport in r.transports
  }

  ghost function AnnouncementOf(r: State, c: Uuid): Entry
    requires CanAnnounce(r, c)
  {
    var t := r.transports[r.clients[c].transport];
    Letter(r, r.servers[r.clients[c].server.value].transport,
           ClientConnected(r.notificationId, t.name, t.uuid, t.peer, r.clients[c].address))
  }

  ghost predicate IsAnnounced(r': State, r: State, c: Uuid) {
    && CanAnnounce(r, c) && SameElsewhere(r', r) && r'.troughputCounter == r.troughputCounter && r'.clients == r.clients
    && r'.notificationId == r.notificationId + 1 && r'.log == r.log + [AnnouncementOf(r, c)]
  }

  predicate IsPrefix(items: seq<bytes>, i: nat, done: seq<bytes>) {
    i <= |items| && done == items[..i]
  }

  lemma PrefixOneMore(items: seq<bytes>, i: nat, done: seq<bytes>)
    requires IsPrefix(items, i, done) && i < |items|
    ensures IsPrefix(items, i + 1, done + [items[i]])
  {
  }

  lemma PrefixIsAll(items: seq<bytes>, done: seq<bytes>)
    requires IsPrefix(items, |items|, done)
    ensures done == items
  {
  }

  lemma NewSince(a: set<object>, b: set<object>, c: set<object>)
    ensures a - c <= (a - b) + (b - c)
  {
  }

  lemma ItemsOneMore(read: bytes -> Request, r: State, id: ClientId, items: seq<bytes>, item: bytes, slip: bool,
                     hangups: seq<seq<ClientId>>)
    ensures HandleItems(read, r, id, items + [item], slip, hangups)
            == HandleItem(read, HandleItems(read, r, id, items, slip, hangups), id, item, slip,
                          Hangups(hangups, |items|))
  {
    assert (items + [item])[..|items|] == items;
  }

  /** The tables of sockets, and the counters of traffic, after a socket has closed. */
  predicate IsUnlisted(r': State, r: State, id: ClientId)
    requires Listed(r, id)
  {
    && r'.transports == r.transports[id := r.transports[id].(listed := false)] && r'.jsonClients == r.jsonClients - {id}
    && r'.troughput == r.troughput && r'.troughputCounter == r.troughputCounter
  }

  /** What is left after the socket of nobody registered has closed is what Registry says. */
  lemma UnlistedIsDisconnect(r': State, r: State, id: ClientId)
    requires Listed(r, id)
    requires r.transports[id].kind == TypeServer ==> r.transports[id].uuid !in r.servers
    requires r.transports[id].kind == TypeClient ==> r.transports[id].uuid !in r.clients
    requires IsUnlisted(r', r, id) && r'.servers == r.servers && r'.clients == r.clients
    requires r'.notificationId == r.notificationId && r'.log == r.log + [Closed(id)]
    ensures r' == Disconnect(r, id)
  {
  }

  /** The sockets of some clients. */
  ghost function MembersOf(clients: map<Uuid, ClientConnection>, members: set<Uuid>): set<ClientId> {
    set c | c in members :: if c in clients then clients[c].transport else 0
  }

  /** What is left after a server's socket has closed is what Registry says. */
  lemma DroppedIsDisconnect(r': State, r: State, id: ClientId)
    requires Listed(r, id) && r.transports[id].kind == TypeServer && r.transports[id].uuid in r.servers
    requires var members := r.servers[r.transports[id].uuid].byUuid;
             && r'.clients == (map c | c in r.clients :: if c in members then Orphan(r.clients[c]) else r.clients[c])
             && r'.log == r.log + [Closed(id)] + [Killed(MembersOf(r.clients, members))]
    requires IsUnlisted(r', r, id) && r'.servers == r.servers - {r.transports[id].uuid}
    requires r'.notificationId == r.notificationId
    ensures r' == Disconnect(r, id)
  {
    var members := r.servers[r.transports[id].uuid].byUuid;
    var r1 := Unlist(r, id);
    assert (set c | c in members :: ClientTransport(r1, c)) == MembersOf(r.clients, members);
  }

  /** What is left after a client's socket has closed is what Registry says. */
  lemma OrphanIsDisconnect(r': State, r: State, id: ClientId)
    requires Listed(r, id) && r.transports[id].kind == TypeClient && r.transports[id].uuid in r.clients
    requires r.clients[r.transports[id].uuid].server.None?
    requires IsUnlisted(r', r, id) && r'.servers == r.servers && r'.clients == r.clients - {r.transports[id].uuid}
    requires r'.notificationId == r.notificationId && r'.log == r.log + [Closed(id)]
    ensures r' == Disconnect(r, id)
  {
  }

  lemma MemberIsDisconnect(r': State, r: State, id: ClientId, u: Uuid)
    requires Listed(r, id) && r.transports[id].kind == TypeClient && r.transports[id].uuid in r.clients
    requires r.clients[r.transports[id].uuid].server == Some(u) && u in r.servers && r.servers[u].transport != id
    requires IsUnlisted(r', r, id) && r'.clients == r.clients - {r.transports[id].uuid}
    requires var c, a := r.transports[id].uuid, r.clients[r.transports[id].uuid].address;
             && r'.servers == r.servers[u := Detach(r.servers[u], c, a)] && r'.notificationId == r.notificationId + 1
             && r'.log == r.log + [Closed(id)]
                + [Letter(r, r.servers[u].transport, ClientDisconnected(r.notificationId, a))]
    ensures r' == Disconnect(r, id)
  {
  }

  lemma SentIsForwarded(r': State, r: State, c: Uuid, data: bytes)
    requires SameElsewhere(r', r) && r'.clients == r.clients && r'.notificationId == r.notificationId
    requires r'.log == r.log + [Sent(ClientTransport(r, c), Forward(data))]
    requires r'.troughputCounter == r.troughputCounter + |data|
    ensures r' == ForwardPayload(r, c, data)
  {
  }

  /** What is left after an attached client's chunk is what Registry says. */
  lemma FedIsTunnelChunk(r': State, r: State, c: Uuid, data: bytes)
    requires c in r.clients && r.clients[c].server.Some? && r.clients[c].server.value in r.servers
    requires SameElsewhere(r', r) && r'.clients == r.clients[c := r.clients[c].(fed := r.clients[c].fed + [data])]
    requires r'.log == r.log + [Sent(r.servers[r.clients[c].server.value].transport,
                                     Tunnel(r.clients[c].address, data))]
    requires r'.notificationId == r.notificationId && r'.troughputCounter == r.troughputCounter + |data|
    ensures r' == TunnelChunk(r, c, r.clients[c].server.value, data)
  {
  }

  lemma AnnouncedIsAddClient(r': State, r1: State, r: State, id: ClientId, c: Uuid, name: string, u: Uuid)
    requires IsAttach(r1, r, id, c, name, u) && IsAnnounced(r', r1, c)
    ensures id in r.transports && u in r.servers && r' == Registry.AddClient(r, id, c, name, u)
  {
  }

  ghost predicate Attached(s': ServerConnection, s: ServerConnection, c: Uuid, a: u16) {
    s' == Attach(s, c) && a == NextAddress(s.byAddress.Keys, s.counter)
  }

  /** The proxy's life: the objects go through exactly the runs of Registry, and so keep
      everything proved of these. */
  method EventLoop(codec: Codec, read: bytes -> Request, es: seq<Event>) returns (server: TunnelProxyServer)
    ensures server.Valid() && server.Value() == Run(read, es)
    ensures RegistryInvariant.Sound(server.Value())
    ensures RegistryRuns.Admissible(read, es) ==> RegistryInvariant.Inv(server.Value())
  {
    server := new TunnelProxyServer(codec, read);
    for i := 0 to |es|
      invariant server.Valid() && server.Value() == Run(read, es[..i]) && server.read == read && fresh(server.Repr)
    {
      assert es[..i + 1][..i] == es[..i];
      server.HandleEvent(es[i]);
    }
    assert es[..|es|] == es;
    RegistryRuns.RunIsSound(read, es);
    if RegistryRuns.Admissible(read, es) {
      RegistryRuns.RunKeeps(read, es);
    }
  }
}
