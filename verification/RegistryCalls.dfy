/** What each remote call comes to, exactly, and that every call is answered once. */
module RegistryCalls {
  import opened Bytes
  import opened Messages
  import opened AddressAllocator
  import opened Registry
  import opened RegistryInvariant

  /** A socket that has not taken a role yet. */
  predicate Unregistered(r: State, id: ClientId) {
    Listed(r, id) && r.transports[id].kind == TypeNone
  }

  predicate Taken(r: State, uuid: Uuid) {
    uuid in r.servers || uuid in r.clients
  }

  /** r' differs from r at most by a kill request on the socket that called. */
  predicate OnlyRefused(r: State, r': State, id: ClientId) {
    && r' == r.(transports := r'.transports) && r'.transports.Keys == r.transports.Keys
    && (forall i :: i in r.transports && i != id ==> r'.transports[i] == r.transports[i])
    && (Listed(r, id) ==> r'.transports[id] == r.transports[id].(killRequested := true))
    && (!Listed(r, id) ==> r' == r)
  }

  /** A server is accepted exactly when its socket has no role and its uuid is not in use;
      it starts without clients, and SLIP is to follow. Otherwise nothing changes but that
      the socket is to be killed. */
  lemma RegisterServerExactly(r: State, id: ClientId, u: Uuid, name: string)
    ensures var (r', e) := CallRegisterServer(r, id, u, name);
            && (e == NoError <==> Unregistered(r, id) && !Taken(r, u))
            && (e != NoError ==> OnlyRefused(r, r', id) && (Listed(r, id) <==> e == AlreadyRegistered))
            && (e == NoError ==>
                  HoldsTransport(r', id, TypeServer, u) && r'.transports[id].slipAfter
                  && u in r'.servers && r'.servers[u].transport == id && r'.servers[u].byAddress == map[]
                  && r'.servers.Keys == r.servers.Keys + {u} && r'.clients == r.clients && r'.log == r.log)
  {
  }

  /** What an accepted client's registration leaves behind. */
  predicate Registered(r: State, r': State, id: ClientId, c: Uuid, name: string, u: Uuid)
    requires u in r.servers && id in r.transports && r.servers[u].transport in r.transports
  {
    && HoldsTransport(r', id, TypeClient, c)
    && c in r'.clients && r'.clients[c].transport == id && r'.clients[c].server == Some(u)
    && Announces(r, r', id, c, name, u, r'.clients[c].address)
  }

  /** A client is accepted exactly when its socket has no role, its uuid is not in use and
      its server is there. Its server, and nobody else, is told who has come and where; if
      the search finds room, its address is its own. */
  lemma RegisterClientExactly(r: State, id: ClientId, c: Uuid, name: string, u: Uuid)
    requires Tables(r)
    ensures var (r', e) := CallRegisterClient(r, id, c, name, u);
            && (e == NoError <==> Unregistered(r, id) && !Taken(r, c) && u in r.servers)
            && (e != NoError ==> OnlyRefused(r, r', id))
            && (e == ServerNotFound <==> Unregistered(r, id) && !Taken(r, c) && u !in r.servers)
            && (e == NoError ==> r.servers[u].transport in r.transports && Registered(r, r', id, c, name, u))
            && (e == NoError && HasRoom(r.servers[u].byAddress.Keys, r.servers[u].counter) ==>
                  !Blocked(r.servers[u].byAddress.Keys, r'.clients[c].address))
  {
    if Unregistered(r, id) && !Taken(r, c) && u in r.servers {
      assert HoldsTransport(r, r.servers[u].transport, TypeServer, u);
      AddClientRegisters(r, id, c, name, u);
    }
  }

  lemma AddClientRegisters(r: State, id: ClientId, c: Uuid, name: string, u: Uuid)
    requires u in r.servers && Unregistered(r, id) && r.servers[u].transport in r.transports
    requires r.servers[u].transport != id
    ensures Registered(r, AddClient(r, id, c, name, u), id, c, name, u)
    ensures HasRoom(r.servers[u].byAddress.Keys, r.servers[u].counter) ==>
              !Blocked(r.servers[u].byAddress.Keys, AddClient(r, id, c, name, u).clients[c].address)
  {
    NextAddressExactly(r.servers[u].byAddress.Keys, r.servers[u].counter);
  }

  predicate Announces(r: State, r': State, id: ClientId, c: Uuid, name: string, u: Uuid, a: u16)
    requires u in r.servers && id in r.transports && r.servers[u].transport in r.transports
  {
    var s := r.servers[u].transport;
    var control := ClientConnected(r.notificationId, name, c, r.transports[id].peer, a);
    r'.log == r.log + [Sent(s, if r.transports[s].slip then Framed(control) else Plain(control))]
  }

  /** A disconnect is granted exactly to a server for an address one of its clients holds.
      It kills this client's socket and no other, and changes no table. */
  lemma DisconnectClientExactly(r: State, id: ClientId, a: u16)
    requires Inv(r)
    ensures var (r', e) := CallDisconnectClient(r, id, a);
            && (e == NoError <==>
                  Listed(r, id) && r.transports[id].kind == TypeServer && HoldsAddress(r, r.transports[id].uuid, a))
            && (e == UnknownSocketAddress <==>
                  Listed(r, id) && r.transports[id].kind == TypeServer && !HoldsAddress(r, r.transports[id].uuid, a))
            && (e == UnknownSocketAddress ==> r' == r)
            && (e != NoError && e != UnknownSocketAddress ==> OnlyRefused(r, r', id))
            && (forall c :: e == NoError && IsAttachedTo(r, c, r.transports[id].uuid, a) ==>
                r' == Kill(r, r.clients[c].transport))
  {
    if Listed(r, id) && r.transports[id].kind == TypeServer {
      assert IsHeld(r, id);
      var u := r.transports[id].uuid;
      if a in r.servers[u].byAddress {
        assert IsIndexed(r, u, a);
        assert IsAttachedTo(r, r.servers[u].byAddress[a], u, a);
      }
      forall c | IsAttachedTo(r, c, u, a)
        ensures a in r.servers[u].byAddress && r.servers[u].byAddress[a] == c
      {
        assert IsSettled(r, c) && IsLinked(r, c);
      }
    }
  }

  /** Some client attached to server u has address a. */
  ghost predicate HoldsAddress(r: State, u: Uuid, a: u16) {
    exists c :: IsAttachedTo(r, c, u, a)
  }

  // ---------------------------------------------------------------- answers

  /** The answers in a log, with the sockets they went to. */
  function Answers(log: seq<Entry>): seq<Entry> {
    if log == [] then [] else NextAnswers(Answers(log[..|log| - 1]), log[|log| - 1])
  }

  function NextAnswers(answers: seq<Entry>, e: Entry): seq<Entry> {
    if e.Sent? && e.message.IsAnswer() then answers + [e] else answers
  }

  lemma AnswersOneMore(log: seq<Entry>, e: Entry)
    ensures Answers(log + [e]) == NextAnswers(Answers(log), e)
  {
    assert (log + [e])[..|log|] == log;
  }

  // ---------------------------------------------------------------- what a call is owed

  /** What a socket that registers as server u is told. */
  function ServerAnswer(r: State, id: ClientId, u: Uuid): ProxyError {
    if u == NULL_UUID then InvalidUuid
    else if !Listed(r, id) then InternalServerError
    else if Unregistered(r, id) && !Taken(r, u) then NoError
    else AlreadyRegistered
  }

  /** What a socket that registers as client c of server u is told. */
  function ClientAnswer(r: State, id: ClientId, c: Uuid, u: Uuid): ProxyError {
    if u == NULL_UUID || c == NULL_UUID then InvalidUuid
    else if !Listed(r, id) then InternalServerError
    else if !Unregistered(r, id) || Taken(r, c) then AlreadyRegistered
    else if u in r.servers then NoError
    else ServerNotFound
  }

  /** What a socket that asks for a disconnect at address a is told. */
  function DisconnectAnswer(r: State, id: ClientId, a: u16): ProxyError {
    if !Listed(r, id) then InternalServerError
    else if r.transports[id].kind != TypeServer then AlreadyRegistered
    else if r.transports[id].uuid !in r.servers then InternalServerError
    else if a in r.servers[r.transports[id].uuid].byAddress then NoError
    else UnknownSocketAddress
  }

  /** The reply each procedure owes, from the tables alone. */
  function Owed(r: State, id: ClientId, p: Procedure): Reply {
    match p
    case Hello => Description
    case Introspect => Description
    case Ping(timestamp) => Pong(timestamp)
    case RegisterServer(u, _) => ServerRegistration(ServerAnswer(r, id, u))
    case RegisterClient(c, _, u) => ClientRegistration(ClientAnswer(r, id, c, u))
    case DisconnectClient(a) => Disconnection(DisconnectAnswer(r, id, a))
  }

  /** The errors after which a socket is not kept. */
  predicate IsFatal(reply: Reply) {
    match reply
    case ServerRegistration(e) => e == AlreadyRegistered || e == InternalServerError
    case ClientRegistration(e) => e == AlreadyRegistered || e == ServerNotFound || e == InternalServerError
    case Disconnection(e) => e == AlreadyRegistered || e == InternalServerError
    case _ => false
  }

  /** What a call has the proxy write before the answer: an accepted client is announced to
      its server, and the client a server wants gone is killed. */
  function Announced(r: State, id: ClientId, p: Procedure): seq<Entry> {
    match p
    case RegisterClient(c, name, u) =>
      if ClientAnswer(r, id, c, u) != NoError then [] else
        var s := r.servers[u];
        var a := NextAddress(s.byAddress.Keys, s.counter);
        [Letter(r, s.transport, ClientConnected(r.notificationId, name, c, r.transports[id].peer, a))]
    case DisconnectClient(a) =>
      if DisconnectAnswer(r, id, a) != NoError then [] else
        [Killed({ClientTransport(r, r.servers[r.transports[id].uuid].byAddress[a])})]
    case _ => []
  }

  /** The kill that follows an answer. */
  function KilledAfter(r: State, id: ClientId, fatal: bool): seq<Entry> {
    if id in r.transports && (r.transports[id].killRequested || (fatal && r.transports[id].listed))
    then [Killed({id})] else []
  }

  /** The tables after a call: an accepted server or client is in them under its uuid, and
      nothing else has come or gone. */
  ghost predicate TablesAfter(r: State, r': State, id: ClientId, p: Procedure) {
    && r'.servers.Keys
       == r.servers.Keys + (if Owed(r, id, p) == ServerRegistration(NoError) then {p.serverUuid} else {})
    && r'.clients.Keys
       == r.clients.Keys + (if Owed(r, id, p) == ClientRegistration(NoError) then {p.clientUuid} else {})
    && (forall u :: u in r.servers && !(p.RegisterClient? && p.serverUuid == u) ==> r'.servers[u] == r.servers[u])
    && (forall c :: c in r.clients ==> r'.clients[c] == r.clients[c])
    && r'.jsonClients == r.jsonClients && r'.transports.Keys == r.transports.Keys
    && (forall i :: i in r.transports && i != id ==> r'.transports[i] == r.transports[i])
  }

  /** The socket that called: it has the role it was given, and no other. */
  ghost predicate RoleAfter(r: State, r': State, id: ClientId, p: Procedure) {
    && (Owed(r, id, p) == ServerRegistration(NoError) ==>
          && HoldsTransport(r', id, TypeServer, p.serverUuid) && r'.transports[id].name == p.serverName
          && p.serverUuid in r'.servers && r'.servers[p.serverUuid] == ServerConnection(id, 0, {}, map[]))
    && (Owed(r, id, p) == ClientRegistration(NoError) ==>
          ClientAttached(r, r', id, p.clientUuid, p.clientName, p.serverUuid))
    && (id in r.transports && id in r'.transports && !IsAcceptance(Owed(r, id, p)) ==>
          r'.transports[id].kind == r.transports[id].kind && r'.transports[id].uuid == r.transports[id].uuid)
  }

  /** A client has come to server u: its socket, its connection, and both indexes. */
  ghost predicate ClientAttached(r: State, r': State, id: ClientId, c: Uuid, name: string, u: Uuid) {
    && HoldsTransport(r', id, TypeClient, c) && r'.transports[id].name == name
    && c in r'.clients && u in r.servers && u in r'.servers
    && var client := r'.clients[c];
       && client.transport == id && client.server == Some(u) && client.fed == []
       && r'.servers[u].transport == r.servers[u].transport && r'.servers[u].byUuid == r.servers[u].byUuid + {c}
       && r'.servers[u].byAddress == r.servers[u].byAddress[client.address := c]
  }

  predicate IsAcceptance(reply: Reply) {
    reply == ServerRegistration(NoError) || reply == ClientRegistration(NoError)
  }
  lemma InvokeOwes(r: State, id: ClientId, p: Procedure)
    ensures Invoke(r, id, p).1 == Owed(r, id, p)
  {
  }

  lemma InvokeAnnounces(r: State, id: ClientId, p: Procedure)
    requires Tables(r)
    ensures Invoke(r, id, p).0.log == r.log + Announced(r, id, p)
  {
    if p.RegisterClient? && ClientAnswer(r, id, p.clientUuid, p.serverUuid) == NoError {
      assert HoldsTransport(r, r.servers[p.serverUuid].transport, TypeServer, p.serverUuid);
    }
  }

  lemma InvokeTables(r: State, id: ClientId, p: Procedure)
    ensures TablesAfter(r, Invoke(r, id, p).0, id, p)
  {
    match p
    case RegisterServer(u, name) => RegisterServerTables(r, id, u, name);
    case RegisterClient(c, name, u) => RegisterClientTables(r, id, c, name, u);
    case DisconnectClient(a) => DisconnectClientTables(r, id, a);
    case _ =>
  }

  lemma RegisterServerTables(r: State, id: ClientId, u: Uuid, name: string)
    ensures TablesAfter(r, Invoke(r, id, RegisterServer(u, name)).0, id, RegisterServer(u, name))
  {
  }

  lemma RegisterClientTables(r: State, id: ClientId, c: Uuid, name: string, u: Uuid)
    ensures TablesAfter(r, Invoke(r, id, RegisterClient(c, name, u)).0, id, RegisterClient(c, name, u))
  {
  }

  lemma DisconnectClientTables(r: State, id: ClientId, a: u16)
    ensures TablesAfter(r, Invoke(r, id, DisconnectClient(a)).0, id, DisconnectClient(a))
  {
  }

  lemma InvokeRole(r: State, id: ClientId, p: Procedure)
    ensures RoleAfter(r, Invoke(r, id, p).0, id, p)
  {
    if Owed(r, id, p) == ClientRegistration(NoError) {
      AddClientRole(r, id, p.clientUuid, p.clientName, p.serverUuid);
    }
  }

  lemma AddClientRole(r: State, id: ClientId, c: Uuid, name: string, u: Uuid)
    requires Unregistered(r, id) && u in r.servers && c !in r.clients
    ensures ClientAttached(r, AddClient(r, id, c, name, u), id, c, name, u)
  {
  }

  /** The flags of a socket after its call. */
  predicate FlagsAfter(t: Transport, t': Transport, reply: Reply) {
    && t'.killRequested == (t.killRequested || (IsFatal(reply) && t.listed))
    && t'.slipAfter == (t.slipAfter || reply == ServerRegistration(NoError)) && t'.slip == t.slip
    && t'.buffer == t.buffer && t'.listed == t.listed && t'.peer == t.peer
  }

  lemma InvokeFlags(r: State, id: ClientId, p: Procedure)
    requires id in r.transports
    ensures FlagsAfter(r.transports[id], Invoke(r, id, p).0.transports[id], Owed(r, id, p))
  {
    match p
    case RegisterServer(u, name) => RegisterServerFlags(r, id, u, name);
    case RegisterClient(c, name, u) => RegisterClientFlags(r, id, c, name, u);
    case DisconnectClient(a) => DisconnectClientFlags(r, id, a);
    case _ =>
  }

  lemma RegisterServerFlags(r: State, id: ClientId, u: Uuid, name: string)
    requires id in r.transports
    ensures var p := RegisterServer(u, name);
            FlagsAfter(r.transports[id], Invoke(r, id, p).0.transports[id], Owed(r, id, p))
  {
  }

  lemma RegisterClientFlags(r: State, id: ClientId, c: Uuid, name: string, u: Uuid)
    requires id in r.transports
    ensures var p := RegisterClient(c, name, u);
            FlagsAfter(r.transports[id], Invoke(r, id, p).0.transports[id], Owed(r, id, p))
  {
    if ClientAnswer(r, id, c, u) == NoError {
      AddClientFlags(r, id, c, name, u);
    }
  }

  lemma AddClientFlags(r: State, id: ClientId, c: Uuid, name: string, u: Uuid)
    requires id in r.transports && u in r.servers
    ensures FlagsAfter(r.transports[id], AddClient(r, id, c, name, u).transports[id], ClientRegistration(NoError))
  {
  }

  lemma DisconnectClientFlags(r: State, id: ClientId, a: u16)
    requires id in r.transports
    ensures var p := DisconnectClient(a);
            FlagsAfter(r.transports[id], Invoke(r, id, p).0.transports[id], Owed(r, id, p))
  {
  }

  /** A call, from the packet to what is written and what is in the tables: the announcement
      if there is one, the answer it is owed, in the mode the socket was in, and a kill
      exactly if the answer was fatal or one had been requested before; SLIP is on after it
      exactly if it was before, or if it is due and the socket is kept. */
  lemma CallIsHandledExactly(read: bytes -> Request, r: State, id: ClientId, packet: bytes, n: int, p: Procedure)
    requires Tables(r) && read(packet) == Call(n, p)
    ensures var r', reply := HandlePacket(read, r, id, packet), Owed(r, id, p);
            && r'.log == r.log + Announced(r, id, p) + [Letter(r, id, Response(n, reply))]
               + KilledAfter(r, id, IsFatal(reply))
            && TablesAfter(r, r', id, p) && RoleAfter(r, r', id, p)
            && (id in r.transports ==>
                  r'.transports[id].slip ==
                    (r.transports[id].slip
                     || ((r.transports[id].slipAfter || reply == ServerRegistration(NoError))
                         && KilledAfter(r, id, IsFatal(reply)) == [])))
  {
    var (r1, reply) := Invoke(r, id, p);
    InvokeOwes(r, id, p);
    InvokeAnnounces(r, id, p);
    InvokeTables(r, id, p);
    InvokeRole(r, id, p);
    if id in r.transports {
      InvokeFlags(r, id, p);
    }
    AfterResponseTables(r1, Send(r1, id, Response(n, reply)), id);
  }

  lemma AfterResponseTables(r1: State, r2: State, id: ClientId)
    requires r2 == r1.(log := r2.log)
    ensures var r' := AfterResponse(r2, id);
            && r'.servers == r1.servers && r'.clients == r1.clients && r'.jsonClients == r1.jsonClients
            && r'.transports.Keys == r1.transports.Keys
            && (forall i :: i in r1.transports && i != id ==> r'.transports[i] == r1.transports[i])
            && (id in r1.transports ==>
                  r'.transports[id] == r1.transports[id].(slip := r'.transports[id].slip)
                  && r'.transports[id].slip ==
                     (r1.transports[id].slip || (r1.transports[id].slipAfter && !r1.transports[id].killRequested)))
            && r'.log == r2.log + if id in r1.transports && r1.transports[id].killRequested then [Killed({id})] else []
  {
  }

  /** What cannot be read as a call is answered with an error, kills the socket, and changes
      nothing else. */
  lemma UnusableIsHandledExactly(read: bytes -> Request, r: State, id: ClientId, packet: bytes, n: int)
    requires read(packet) == Unusable(n)
    ensures HandlePacket(read, r, id, packet)
            == r.(log := r.log + [Letter(r, id, ErrorResponse(n))] + [Killed({id})])
  {
  }

  // ---------------------------------------------------------------- answered once

  /** A call writes at most one entry, and that is no answer. */
  lemma InvokeWritesNoAnswer(r: State, id: ClientId, p: Procedure)
    ensures var log := Invoke(r, id, p).0.log;
            log == r.log || (log == r.log + [log[|r.log|]] && (log[|r.log|].Sent? ==> !log[|r.log|].message.IsAnswer()))
  {
  }

  lemma InvokeAnswersNothing(r: State, id: ClientId, p: Procedure)
    ensures Answers(Invoke(r, id, p).0.log) == Answers(r.log)
  {
    InvokeWritesNoAnswer(r, id, p);
    var log := Invoke(r, id, p).0.log;
    if log != r.log {
      AnswersOneMore(r.log, log[|r.log|]);
    }
  }

  /** Whatever a packet holds, it is answered exactly once, on the socket it came from and
      under the id it carried: with the reply its call is owed, or with an error. */
  lemma PacketsAreAnsweredOnce(read: bytes -> Request, r: State, id: ClientId, packet: bytes)
    ensures exists m: Message :: m.IsAnswer() && m.control.id == read(packet).id
              && (read(packet).Call? ==>
                    m.control == Response(read(packet).id, Owed(r, id, read(packet).procedure)))
              && (read(packet).Unusable? ==> m.control.ErrorResponse?)
              && Answers(HandlePacket(read, r, id, packet).log) == Answers(r.log) + [Sent(id, m)]
  {
    match read(packet)
    case Unusable(n) =>
      var e := Letter(r, id, ErrorResponse(n));
      AnswersOneMore(r.log, e);
      AnswersOneMore(r.log + [e], Killed({id}));
      assert e.message.IsAnswer();
    case Call(n, p) =>
      InvokeAnswersNothing(r, id, p);
      InvokeOwes(r, id, p);
      var (r1, reply) := Invoke(r, id, p);
      var e := Letter(r1, id, Response(n, reply));
      AnswersOneMore(r1.log, e);
      AnswersOneMore(r1.log + [e], Killed({id}));
      assert e.message.IsAnswer();
  }
}
