/** What every step of the proxy keeps: the tables point at each other consistently, every
    tunnel server has been told exactly the sessions its tables hold, nothing but answers
    goes to a closed socket, and every payload byte is accounted for. */
module RegistryInvariant {
  import opened Bytes
  import opened Sessions
  import opened Messages
  import opened AddressAllocator
  import opened Registry

  // ---------------------------------------------------------------- reading the log

  /** Everything sent on a socket since it was opened. */
  function Outbox(log: seq<Entry>, id: ClientId): seq<Message> {
    if log == [] then [] else NextOutbox(Outbox(log[..|log| - 1], id), id, log[|log| - 1])
  }

  function NextOutbox(box: seq<Message>, id: ClientId, e: Entry): seq<Message> {
    if e == Opened(id) then []
    else if e.Sent? && e.to == id then box + [e.message]
    else box
  }

  /** The sessions a socket has been told about. */
  function Seen(log: seq<Entry>, id: ClientId): Option<Board> {
    Track(Story(Outbox(log, id)))
  }

  function NextSeen(board: Option<Board>, id: ClientId, e: Entry): Option<Board> {
    if e == Opened(id) then Some(map[])
    else if e.Sent? && e.to == id && Told(e.message).Some? then TrackEvent(board, Told(e.message).value)
    else board
  }

  predicate IsOpen(log: seq<Entry>, id: ClientId) {
    log != [] && NextIsOpen(IsOpen(log[..|log| - 1], id), id, log[|log| - 1])
  }

  predicate NextIsOpen(open: bool, id: ClientId, e: Entry) {
    if e == Opened(id) then true else if e == Closed(id) then false else open
  }

  /** A kill was issued for the socket since it was opened. */
  predicate IsKilled(log: seq<Entry>, id: ClientId) {
    log != [] && NextIsKilled(IsKilled(log[..|log| - 1], id), id, log[|log| - 1])
  }

  predicate NextIsKilled(killed: bool, id: ClientId, e: Entry) {
    if e == Opened(id) then false else killed || (e.Killed? && id in e.ids)
  }

  /** Only answers are ever written to a socket that has closed. */
  predicate Polite(log: seq<Entry>) {
    log == [] || (Polite(log[..|log| - 1]) && NextPolite(log[..|log| - 1], log[|log| - 1]))
  }

  predicate NextPolite(log: seq<Entry>, e: Entry) {
    e.Sent? ==> e.message.IsAnswer() || IsOpen(log, e.to)
  }

  predicate IsAddressed(e: Entry) {
    e.Sent? && e.message.Tunnel? ==> e.message.address != JSON_ADDRESS
  }

  /** No chunk is tunnelled under the address of the JSON server. */
  ghost predicate Addressed(log: seq<Entry>) {
    forall n :: 0 <= n < |log| ==> IsAddressed(log[n])
  }

  /** Payload bytes carried by a log, in both directions. */
  function Carried(log: seq<Entry>): nat {
    if log == [] then 0 else Carried(log[..|log| - 1]) + Payload(log[|log| - 1])
  }

  function Payload(e: Entry): nat {
    if e.Sent? && (e.message.Tunnel? || e.message.Forward?) then |e.message.data| else 0
  }

  function PublishedSum(log: seq<Entry>): nat {
    if log == [] then 0 else
      PublishedSum(log[..|log| - 1]) + if log[|log| - 1].Published? then log[|log| - 1].value else 0
  }

  lemma OutboxOneMore(log: seq<Entry>, e: Entry)
    ensures forall id :: Outbox(log + [e], id) == NextOutbox(Outbox(log, id), id, e)
  {
    assert (log + [e])[..|log|] == log;
  }

  lemma SeenNext(log: seq<Entry>, e: Entry, id: ClientId)
    ensures Seen(log + [e], id) == NextSeen(Seen(log, id), id, e)
  {
    OutboxOneMore(log, e);
    if e.Sent? && e.to == id {
      StoryOneMore(Outbox(log, id), e.message);
      if Told(e.message).Some? {
        TrackOneMore(Story(Outbox(log, id)), Told(e.message).value);
      } else {
        assert Story(Outbox(log, id)) + [] == Story(Outbox(log, id));
      }
    }
  }

  lemma SeenOneMore(log: seq<Entry>, e: Entry)
    ensures forall id :: Seen(log + [e], id) == NextSeen(Seen(log, id), id, e)
  {
    forall id ensures Seen(log + [e], id) == NextSeen(Seen(log, id), id, e) {
      SeenNext(log, e, id);
    }
  }

  lemma OpenOneMore(log: seq<Entry>, e: Entry)
    ensures forall id :: IsOpen(log + [e], id) == NextIsOpen(IsOpen(log, id), id, e)
    ensures Polite(log + [e]) <==> Polite(log) && NextPolite(log, e)
  {
    assert (log + [e])[..|log|] == log;
  }

  lemma KilledOneMore(log: seq<Entry>, e: Entry)
    ensures forall id :: IsKilled(log + [e], id) == NextIsKilled(IsKilled(log, id), id, e)
  {
    assert (log + [e])[..|log|] == log;
  }

  lemma SumsOneMore(log: seq<Entry>, e: Entry)
    ensures Carried(log + [e]) == Carried(log) + Payload(e)
    ensures PublishedSum(log + [e]) == PublishedSum(log) + if e.Published? then e.value else 0
  {
    assert (log + [e])[..|log|] == log;
  }

  // ---------------------------------------------------------------- the invariant

  /** Server and client uuids are disjoint, and the transports of each type are in
      bijection with their table. */
  ghost predicate Tables(r: State) {
    && r.servers.Keys !! r.clients.Keys
    && (forall u :: u in r.servers ==> HoldsTransport(r, r.servers[u].transport, TypeServer, u))
    && (forall c :: c in r.clients ==> HoldsTransport(r, r.clients[c].transport, TypeClient, c))
    && (forall id :: Listed(r, id) ==> IsHeld(r, id))
    && (forall id :: id in r.jsonClients <==> Listed(r, id))
  }

  predicate HoldsTransport(r: State, id: ClientId, kind: Kind, uuid: Uuid) {
    Listed(r, id) && r.transports[id].kind == kind && r.transports[id].uuid == uuid
  }

  predicate IsHeld(r: State, id: ClientId)
    requires Listed(r, id)
  {
    var t := r.transports[id];
    match t.kind
    case TypeNone => true
    case TypeServer => t.uuid in r.servers && r.servers[t.uuid].transport == id
    case TypeClient => t.uuid in r.clients && r.clients[t.uuid].transport == id
  }

  /** Every client that points at a server is one of its members, every member and every
      address of a server leads to a client that points back, and a client without a server
      has been killed. */
  ghost predicate Links(r: State) {
    AllLinked(r) && AllIndexed(r) && AllMembers(r)
  }

  ghost predicate AllLinked(r: State) {
    forall c :: c in r.clients ==> IsLinked(r, c)
  }

  ghost predicate AllIndexed(r: State) {
    forall u, a :: u in r.servers && a in r.servers[u].byAddress ==> IsIndexed(r, u, a)
  }

  ghost predicate AllMembers(r: State) {
    forall u, c :: u in r.servers && c in r.servers[u].byUuid ==> c in r.clients && r.clients[c].server == Some(u)
  }

  predicate IsLinked(r: State, c: Uuid)
    requires c in r.clients
  {
    match r.clients[c].server
    case None => r.clients[c].address == NO_ADDRESS && IsKilled(r.log, r.clients[c].transport)
    case Some(u) => u in r.servers && c in r.servers[u].byUuid
  }

  predicate IsIndexed(r: State, u: Uuid, a: u16)
    requires u in r.servers && a in r.servers[u].byAddress
  {
    var c := r.servers[u].byAddress[a];
    c in r.clients && r.clients[c].server == Some(u) && r.clients[c].address == a
  }

  /** An attached client holds its address alone, and that is no reserved one: with the
      links, this makes the two indexes of every server inverse to each other. */
  ghost predicate AllSettled(r: State) {
    forall c :: c in r.clients ==> IsSettled(r, c)
  }

  predicate IsSettled(r: State, c: Uuid)
    requires c in r.clients
  {
    match r.clients[c].server
    case None => true
    case Some(u) =>
      var a := r.clients[c].address;
      && a != JSON_ADDRESS && a != NO_ADDRESS
      && (u in r.servers ==> a in r.servers[u].byAddress && r.servers[u].byAddress[a] == c)
  }

  predicate IsAttachedTo(r: State, c: Uuid, u: Uuid, a: u16) {
    c in r.clients && r.clients[c].server == Some(u) && r.clients[c].address == a
  }

  /** The session a server's tables hold on an address: who is there, and every chunk that
      client has handed over since it registered. */
  function SessionOn(r: State, u: Uuid, a: u16): Session
    requires u in r.servers && a in r.servers[u].byAddress
  {
    var c := r.servers[u].byAddress[a];
    Session(c, if c in r.clients then r.clients[c].fed else [])
  }

  /** A board shows exactly the sessions in a server's tables. */
  ghost predicate Shows(board: Option<Board>, r: State, u: Uuid)
    requires u in r.servers
  {
    && board.Some?
    && board.value.Keys == r.servers[u].byAddress.Keys
    && forall a :: a in r.servers[u].byAddress ==> board.value[a] == SessionOn(r, u, a)
  }

  /** No socket has ever been told anything undisciplined, and every server has been told
      exactly the sessions its tables hold. */
  ghost predicate Boards(r: State) {
    && (forall id :: Seen(r.log, id) != None)
    && (forall u :: u in r.servers ==> Shows(Seen(r.log, r.servers[u].transport), r, u))
    && (forall id :: Listed(r, id) && r.transports[id].kind != TypeServer ==> Seen(r.log, id) == Some(map[]))
  }

  ghost predicate Quiet(r: State) {
    Polite(r.log) && forall id :: Listed(r, id) <==> IsOpen(r.log, id)
  }

  predicate Conserved(r: State) {
    PublishedSum(r.log) + r.troughputCounter == Carried(r.log)
  }

  /** What every step keeps, however many clients a server has. */
  ghost predicate Sound(r: State) {
    Tables(r) && Links(r) && Quiet(r) && Conserved(r)
  }

  /** What every step keeps as long as a registration finds an address to give. */
  ghost predicate Apart(r: State) {
    AllSettled(r) && Boards(r) && Addressed(r.log)
  }

  ghost predicate Inv(r: State) {
    Sound(r) && Apart(r)
  }

  predicate IsEmpty(r: State) {
    && r.transports == map[] && r.jsonClients == {} && r.servers == map[] && r.clients == map[]
    && r.log == [] && r.troughputCounter == 0
  }

  lemma EmptyIsSound(r: State)
    requires IsEmpty(r)
    ensures Sound(r)
  {
  }

  lemma EmptyIsApart(r: State)
    requires IsEmpty(r)
    ensures Apart(r)
  {
    assert forall id :: Outbox(r.log, id) == [];
  }

  lemma InitInv()
    ensures Inv(INIT)
  {
    EmptyIsSound(INIT);
    EmptyIsApart(INIT);
  }

  // ---------------------------------------------------------------- what a change leaves alone

  /** Tables and links survive a change of flags, names, buffers and log. */
  lemma TablesSame(r: State, r': State)
    requires Tables(r)
    requires r'.servers == r.servers && r'.clients == r.clients && r'.jsonClients == r.jsonClients
    requires SameHolders(r, r')
    ensures Tables(r')
  {
    forall id | Listed(r', id) ensures IsHeld(r', id) {
      assert Listed(r, id) && IsHeld(r, id);
    }
    forall u | u in r.servers ensures HoldsTransport(r', r.servers[u].transport, TypeServer, u) {
      assert HoldsTransport(r, r.servers[u].transport, TypeServer, u);
    }
    forall c | c in r.clients ensures HoldsTransport(r', r.clients[c].transport, TypeClient, c) {
      assert HoldsTransport(r, r.clients[c].transport, TypeClient, c);
    }
  }

  ghost predicate SameHolders(r: State, r': State) {
    r'.transports.Keys == r.transports.Keys
    && forall id :: id in r.transports ==> SameHolder(r.transports[id], r'.transports[id])
  }

  predicate SameHolder(t: Transport, t': Transport) {
    t'.kind == t.kind && t'.uuid == t.uuid && t'.listed == t.listed
  }

  lemma LinksSame(r: State, r': State)
    requires Links(r)
    requires r'.servers == r.servers && r'.clients == r.clients
    requires forall id :: IsKilled(r.log, id) ==> IsKilled(r'.log, id)
    ensures Links(r')
  {
    forall c | c in r'.clients ensures IsLinked(r', c) {
      assert IsLinked(r, c);
    }
    forall u, a | u in r'.servers && a in r'.servers[u].byAddress ensures IsIndexed(r', u, a) {
      assert IsIndexed(r, u, a);
    }
  }

  lemma SettledSame(r: State, r': State)
    requires AllSettled(r) && r'.servers == r.servers && r'.clients == r.clients
    ensures AllSettled(r')
  {
    forall c | c in r'.clients ensures IsSettled(r', c) {
      assert IsSettled(r, c);
    }
  }

  lemma AddressedOneMore(log: seq<Entry>, e: Entry)
    ensures Addressed(log + [e]) <==> Addressed(log) && IsAddressed(e)
  {
    var more := log + [e];
    assert more[|log|] == e && forall n :: 0 <= n < |log| ==> more[n] == log[n];
  }

  lemma BoardsSame(r: State, r': State)
    requires Boards(r)
    requires r'.servers == r.servers && r'.clients == r.clients
    requires forall id :: Seen(r'.log, id) == Seen(r.log, id)
    requires forall id :: Listed(r', id) ==> Listed(r, id) && r'.transports[id].kind == r.transports[id].kind
    ensures Boards(r')
  {
    forall u | u in r.servers ensures Shows(Seen(r'.log, r.servers[u].transport), r', u) {
      assert Shows(Seen(r.log, r.servers[u].transport), r, u);
    }
  }

  lemma QuietSame(r: State, r': State, e: Entry)
    requires Quiet(r)
    requires r'.log == r.log + [e] && !e.Opened? && !e.Closed? && NextPolite(r.log, e)
    requires forall id :: Listed(r', id) <==> Listed(r, id)
    ensures Quiet(r')
  {
    OpenOneMore(r.log, e);
    forall id ensures Listed(r', id) <==> IsOpen(r'.log, id) {
      assert IsOpen(r'.log, id) == NextIsOpen(IsOpen(r.log, id), id, e);
    }
  }

  /** An entry that tells nobody about sessions, appended while nothing else the invariant
      looks at changes. */
  ghost predicate Noted(r: State, r': State, e: Entry) {
    && r'.log == r.log + [e] && !e.Opened? && !e.Closed? && NextPolite(r.log, e)
    && (e.Sent? ==> Told(e.message) == None)
    && r'.servers == r.servers && r'.clients == r.clients && r'.jsonClients == r.jsonClients
    && r'.transports == r.transports
    && r'.troughputCounter + (if e.Published? then e.value else 0) == r.troughputCounter + Payload(e)
  }

  lemma EntrySound(r: State, r': State, e: Entry)
    requires Sound(r) && Noted(r, r', e)
    ensures Sound(r')
  {
    TablesSame(r, r');
    assert Links(r') by {
      KilledOneMore(r.log, e);
      LinksSame(r, r');
    }
    SumsOneMore(r.log, e);
    QuietSame(r, r', e);
  }

  lemma EntryApart(r: State, r': State, e: Entry)
    requires Apart(r) && Noted(r, r', e)
    ensures Apart(r')
  {
    SettledSame(r, r');
    SeenOneMore(r.log, e);
    BoardsSame(r, r');
    AddressedOneMore(r.log, e);
  }

  /** r' is as sound as r, and as far apart. */
  ghost predicate Kept(r: State, r': State) {
    Sound(r') && (Apart(r) ==> Apart(r'))
  }

  lemma EntryKeeps(r: State, r': State, e: Entry)
    requires Sound(r) && Noted(r, r', e)
    ensures Kept(r, r')
  {
    EntrySound(r, r', e);
    if Apart(r) {
      EntryApart(r, r', e);
    }
  }

  // ---------------------------------------------------------------- single changes

  lemma SendAnswerKeeps(r: State, id: ClientId, c: Control)
    requires Sound(r) && c.IsAnswer()
    ensures Kept(r, Send(r, id, c))
  {
    EntryKeeps(r, Send(r, id, c), Letter(r, id, c));
  }

  lemma KillKeeps(r: State, id: ClientId)
    requires Sound(r)
    ensures Kept(r, Kill(r, id))
  {
    EntryKeeps(r, Kill(r, id), Killed({id}));
  }

  lemma ForwardPayloadKeeps(r: State, c: Uuid, data: bytes)
    requires Sound(r) && c in r.clients
    ensures Kept(r, ForwardPayload(r, c, data))
  {
    assert HoldsTransport(r, r.clients[c].transport, TypeClient, c);
    EntryKeeps(r, ForwardPayload(r, c, data), Sent(ClientTransport(r, c), Forward(data)));
  }

  lemma PublishKeeps(r: State)
    requires Sound(r)
    ensures Kept(r, Publish(r))
  {
    EntryKeeps(r, Publish(r), Published(r.troughputCounter));
  }

  /** Flags, names and buffers may change freely. */
  lemma RetouchKeeps(r: State, id: ClientId, t: Transport)
    requires Sound(r) && id in r.transports && SameHolder(r.transports[id], t)
    ensures Kept(r, WithTransport(r, id, t))
  {
    var r' := WithTransport(r, id, t);
    TablesSame(r, r');
    LinksSame(r, r');
    if Apart(r) {
      SettledSame(r, r');
      BoardsSame(r, r');
    }
  }

  lemma QuietUnlogged(r: State, r': State)
    requires Quiet(r) && r'.log == r.log
    requires forall id :: Listed(r', id) <==> Listed(r, id)
    ensures Quiet(r')
  {
  }

  lemma AddServerTables(r: State, id: ClientId, u: Uuid, name: string)
    requires Tables(r) && Listed(r, id) && r.transports[id].kind == TypeNone
    requires u !in r.servers && u !in r.clients
    ensures Tables(AddServer(r, id, u, name))
  {
    var r' := AddServer(r, id, u, name);
    forall i | Listed(r', i) ensures IsHeld(r', i) {
      assert Listed(r, i) && IsHeld(r, i);
    }
    forall v | v in r'.servers ensures HoldsTransport(r', r'.servers[v].transport, TypeServer, v) {
      assert v != u ==> HoldsTransport(r, r.servers[v].transport, TypeServer, v);
    }
    forall c | c in r.clients ensures HoldsTransport(r', r.clients[c].transport, TypeClient, c) {
      assert HoldsTransport(r, r.clients[c].transport, TypeClient, c);
    }
  }

  lemma AddServerLinks(r: State, id: ClientId, u: Uuid, name: string)
    requires Links(r) && id in r.transports && u !in r.servers
    ensures Links(AddServer(r, id, u, name))
  {
    var r' := AddServer(r, id, u, name);
    forall c | c in r'.clients ensures IsLinked(r', c) {
      assert IsLinked(r, c);
    }
    forall v, a | v in r'.servers && a in r'.servers[v].byAddress ensures IsIndexed(r', v, a) {
      assert IsIndexed(r, v, a);
    }
  }

  lemma AddServerBoards(r: State, id: ClientId, u: Uuid, name: string)
    requires Tables(r) && Boards(r) && Listed(r, id) && r.transports[id].kind == TypeNone
    requires u !in r.servers
    ensures Boards(AddServer(r, id, u, name))
  {
    var r' := AddServer(r, id, u, name);
    forall v | v in r'.servers ensures Shows(Seen(r'.log, r'.servers[v].transport), r', v) {
      if v != u {
        assert Shows(Seen(r.log, r.servers[v].transport), r, v);
      }
    }
  }

  lemma AddServerSettled(r: State, id: ClientId, u: Uuid, name: string)
    requires Links(r) && AllSettled(r) && id in r.transports && u !in r.servers
    ensures AllSettled(AddServer(r, id, u, name))
  {
    var r' := AddServer(r, id, u, name);
    forall c | c in r'.clients ensures IsSettled(r', c) {
      assert IsLinked(r, c) && IsSettled(r, c);
    }
  }

  lemma AddServerKeeps(r: State, id: ClientId, u: Uuid, name: string)
    requires Sound(r) && Listed(r, id) && r.transports[id].kind == TypeNone
    requires u !in r.servers && u !in r.clients
    ensures Kept(r, AddServer(r, id, u, name))
  {
    AddServerTables(r, id, u, name);
    AddServerLinks(r, id, u, name);
    QuietUnlogged(r, AddServer(r, id, u, name));
    if Apart(r) {
      AddServerSettled(r, id, u, name);
      AddServerBoards(r, id, u, name);
    }
  }

  /** Different servers have different transports. */
  lemma OwnTransport(r: State, u: Uuid, v: Uuid)
    requires Tables(r) && u in r.servers && v in r.servers
    ensures u == v || r.servers[u].transport != r.servers[v].transport
  {
    assert HoldsTransport(r, r.servers[u].transport, TypeServer, u);
    assert HoldsTransport(r, r.servers[v].transport, TypeServer, v);
  }

  // ---------------------------------------------------------------- a client registers

  /** What AddClient may be called with. */
  ghost predicate CanAttach(r: State, id: ClientId, c: Uuid, u: Uuid) {
    && Listed(r, id) && r.transports[id].kind == TypeNone
    && c !in r.servers && c !in r.clients && u in r.servers
  }

  ghost predicate Joined(r: State, r': State, id: ClientId, c: Uuid, u: Uuid, a: u16, e: Entry) {
    && CanAttach(r, id, c, u)
    && r'.transports.Keys == r.transports.Keys
    && (forall i :: i in r.transports && i != id ==> r'.transports[i] == r.transports[i])
    && HoldsTransport(r', id, TypeClient, c)
    && r'.jsonClients == r.jsonClients
    && r'.clients == r.clients[c := ClientConnection(id, Some(u), a, [])]
    && r'.servers.Keys == r.servers.Keys
    && (forall v :: v in r.servers && v != u ==> r'.servers[v] == r.servers[v])
    && r'.servers[u].transport == r.servers[u].transport
    && r'.servers[u].byUuid == r.servers[u].byUuid + {c}
    && r'.servers[u].byAddress == r.servers[u].byAddress[a := c]
    && r'.log == r.log + [e] && r'.troughputCounter == r.troughputCounter
    && e.Sent? && e.to == r.servers[u].transport && Told(e.message) == Some(Begin(a, c)) && Payload(e) == 0
  }

  lemma AddClientJoins(r: State, id: ClientId, c: Uuid, name: string, u: Uuid) returns (a: u16, e: Entry)
    requires CanAttach(r, id, c, u)
    ensures a == NextAddress(r.servers[u].byAddress.Keys, r.servers[u].counter)
    ensures Joined(r, AddClient(r, id, c, name, u), id, c, u, a, e)
  {
    var r', s := AddClient(r, id, c, name, u), r.servers[u];
    a := NextAddress(s.byAddress.Keys, s.counter);
    e := Letter(r', s.transport, ClientConnected(r.notificationId, name, c, r.transports[id].peer, a));
  }

  lemma JoinedHolders(r: State, r': State, id: ClientId, c: Uuid, u: Uuid, a: u16, e: Entry)
    requires Tables(r) && Joined(r, r', id, c, u, a, e)
    ensures forall i :: Listed(r', i) <==> Listed(r, i)
    ensures forall i :: Listed(r', i) ==> IsHeld(r', i)
  {
    forall i | Listed(r', i) ensures IsHeld(r', i) {
      assert Listed(r, i) && IsHeld(r, i);
    }
  }

  lemma JoinedTables(r: State, r': State, id: ClientId, c: Uuid, u: Uuid, a: u16, e: Entry)
    requires Tables(r) && Joined(r, r', id, c, u, a, e)
    ensures Tables(r')
  {
    JoinedHolders(r, r', id, c, u, a, e);
    forall v | v in r'.servers ensures HoldsTransport(r', r'.servers[v].transport, TypeServer, v) {
      assert HoldsTransport(r, r.servers[v].transport, TypeServer, v);
    }
    forall d | d in r'.clients ensures HoldsTransport(r', r'.clients[d].transport, TypeClient, d) {
      assert d != c ==> HoldsTransport(r, r.clients[d].transport, TypeClient, d);
    }
  }

  lemma JoinedLinks(r: State, r': State, id: ClientId, c: Uuid, u: Uuid, a: u16, e: Entry)
    requires Links(r) && Joined(r, r', id, c, u, a, e)
    ensures Links(r')
  {
    KilledOneMore(r.log, e);
    assert AllLinked(r') by {
      forall d | d in r'.clients ensures IsLinked(r', d) {
        assert d != c ==> IsLinked(r, d);
      }
    }
    assert AllIndexed(r') by {
      forall v, x | v in r'.servers && x in r'.servers[v].byAddress ensures IsIndexed(r', v, x) {
        assert x in r.servers[v].byAddress ==> IsIndexed(r, v, x);
      }
    }
  }

  /** A free address goes to the new client alone. */
  lemma JoinedSettled(r: State, r': State, id: ClientId, c: Uuid, u: Uuid, a: u16, e: Entry)
    requires Links(r) && AllSettled(r) && Joined(r, r', id, c, u, a, e) && !Blocked(r.servers[u].byAddress.Keys, a)
    ensures AllSettled(r')
  {
    forall d | d in r'.clients ensures IsSettled(r', d) {
      assert d != c ==> IsSettled(r, d) && IsLinked(r, d);
    }
  }

  /** One that is not is either reserved or taken from the client that had it. */
  lemma BlockedUnsettles(r: State, r': State, id: ClientId, c: Uuid, u: Uuid, a: u16, e: Entry)
    requires Links(r) && Joined(r, r', id, c, u, a, e) && Blocked(r.servers[u].byAddress.Keys, a)
    ensures !AllSettled(r')
  {
    if a in r.servers[u].byAddress {
      assert IsIndexed(r, u, a);
      var d := r.servers[u].byAddress[a];
      assert r'.clients[d] == r.clients[d] && r'.servers[u].byAddress[a] == c;
      assert !IsSettled(r', d);
    } else {
      assert !IsSettled(r', c);
    }
  }

  lemma JoinedSessions(r: State, r': State, id: ClientId, c: Uuid, u: Uuid, a: u16, e: Entry, v: Uuid)
    requires Links(r) && Joined(r, r', id, c, u, a, e) && !Blocked(r.servers[u].byAddress.Keys, a) && v in r.servers
    ensures forall x :: x in r.servers[v].byAddress ==> SessionOn(r', v, x) == SessionOn(r, v, x)
  {
    forall x | x in r.servers[v].byAddress ensures SessionOn(r', v, x) == SessionOn(r, v, x) {
      assert IsIndexed(r, v, x);
    }
  }

  lemma JoinedShows(r: State, r': State, id: ClientId, c: Uuid, u: Uuid, a: u16, e: Entry, v: Uuid,
                    board: Option<Board>)
    requires Joined(r, r', id, c, u, a, e) && !Blocked(r.servers[u].byAddress.Keys, a) && v in r.servers
    requires Shows(board, r, v)
    requires v == u || r.servers[v].transport != r.servers[u].transport
    requires forall x :: x in r.servers[v].byAddress ==> SessionOn(r', v, x) == SessionOn(r, v, x)
    ensures Shows(NextSeen(board, r.servers[v].transport, e), r', v)
  {
  }

  lemma JoinedBoard(r: State, r': State, id: ClientId, c: Uuid, u: Uuid, a: u16, e: Entry, v: Uuid)
    requires Tables(r) && Links(r) && Joined(r, r', id, c, u, a, e) && !Blocked(r.servers[u].byAddress.Keys, a)
    requires v in r.servers
    requires Shows(Seen(r.log, r.servers[v].transport), r, v)
    ensures Shows(Seen(r'.log, r.servers[v].transport), r', v)
  {
    OwnTransport(r, u, v);
    JoinedSessions(r, r', id, c, u, a, e, v);
    JoinedShows(r, r', id, c, u, a, e, v, Seen(r.log, r.servers[v].transport));
    SeenNext(r.log, e, r.servers[v].transport);
  }

  lemma JoinedBoards(r: State, r': State, id: ClientId, c: Uuid, u: Uuid, a: u16, e: Entry)
    requires Tables(r) && Links(r) && Boards(r) && Joined(r, r', id, c, u, a, e)
    requires !Blocked(r.servers[u].byAddress.Keys, a)
    ensures Boards(r')
  {
    forall v | v in r'.servers ensures Shows(Seen(r'.log, r'.servers[v].transport), r', v) {
      JoinedBoard(r, r', id, c, u, a, e, v);
    }
    JoinedKinds(r, r', id, c, u, a, e);
    OthersUntold(r, r', u, e);
  }

  lemma JoinedKinds(r: State, r': State, id: ClientId, c: Uuid, u: Uuid, a: u16, e: Entry)
    requires Tables(r) && Joined(r, r', id, c, u, a, e)
    ensures Listed(r', e.to) && r'.transports[e.to].kind == TypeServer
    ensures forall i :: Listed(r', i) && r'.transports[i].kind != TypeServer
              ==> Listed(r, i) && r.transports[i].kind != TypeServer
  {
    assert HoldsTransport(r, e.to, TypeServer, u);
  }

  lemma JoinedSound(r: State, r': State, id: ClientId, c: Uuid, u: Uuid, a: u16, e: Entry)
    requires Sound(r) && Joined(r, r', id, c, u, a, e)
    ensures Sound(r')
  {
    JoinedTables(r, r', id, c, u, a, e);
    JoinedLinks(r, r', id, c, u, a, e);
    assert Quiet(r') by {
      assert HoldsTransport(r, e.to, TypeServer, u);
      QuietSame(r, r', e);
    }
    SumsOneMore(r.log, e);
  }

  lemma JoinedApart(r: State, r': State, id: ClientId, c: Uuid, u: Uuid, a: u16, e: Entry)
    requires Tables(r) && Links(r) && Apart(r) && Joined(r, r', id, c, u, a, e)
    requires !Blocked(r.servers[u].byAddress.Keys, a)
    ensures Apart(r')
  {
    JoinedSettled(r, r', id, c, u, a, e);
    JoinedBoards(r, r', id, c, u, a, e);
    AddressedOneMore(r.log, e);
  }

  /** A registration keeps the tables sound in any case, and apart exactly when the search
      can reach a free address. */
  lemma AddClientKeepsExactly(r: State, id: ClientId, c: Uuid, name: string, u: Uuid)
    requires Sound(r) && CanAttach(r, id, c, u)
    ensures Sound(AddClient(r, id, c, name, u))
    ensures Apart(r) ==>
              (Apart(AddClient(r, id, c, name, u)) <==> HasRoom(r.servers[u].byAddress.Keys, r.servers[u].counter))
    ensures !HasRoom(r.servers[u].byAddress.Keys, r.servers[u].counter) ==> !AllSettled(AddClient(r, id, c, name, u))
  {
    var r' := AddClient(r, id, c, name, u);
    var a, e := AddClientJoins(r, id, c, name, u);
    NextAddressExactly(r.servers[u].byAddress.Keys, r.servers[u].counter);
    JoinedSound(r, r', id, c, u, a, e);
    if Blocked(r.servers[u].byAddress.Keys, a) {
      BlockedUnsettles(r, r', id, c, u, a, e);
    } else if Apart(r) {
      JoinedApart(r, r', id, c, u, a, e);
    }
  }

  // ---------------------------------------------------------------- a chunk is tunnelled

  function FeedEntry(r: State, c: Uuid, u: Uuid, data: bytes): Entry
    requires c in r.clients && u in r.servers
  {
    Sent(r.servers[u].transport, Tunnel(r.clients[c].address, data))
  }

  ghost predicate Fed(r: State, r': State, c: Uuid, u: Uuid, data: bytes) {
    && c in r.clients && r.clients[c].server == Some(u) && u in r.servers
    && r'.servers == r.servers && r'.transports == r.transports && r'.jsonClients == r.jsonClients
    && r'.clients == r.clients[c := r.clients[c].(fed := r.clients[c].fed + [data])]
    && r'.log == r.log + [FeedEntry(r, c, u, data)]
    && r'.troughputCounter == r.troughputCounter + |data|
  }

  lemma FedTables(r: State, r': State, c: Uuid, u: Uuid, data: bytes)
    requires Tables(r) && Fed(r, r', c, u, data)
    ensures Tables(r')
  {
    forall i | Listed(r', i) ensures IsHeld(r', i) {
      assert Listed(r, i) && IsHeld(r, i);
    }
    forall d | d in r'.clients ensures HoldsTransport(r', r'.clients[d].transport, TypeClient, d) {
      assert HoldsTransport(r, r.clients[d].transport, TypeClient, d);
    }
    forall v | v in r.servers ensures HoldsTransport(r', r.servers[v].transport, TypeServer, v) {
      assert HoldsTransport(r, r.servers[v].transport, TypeServer, v);
    }
  }

  lemma FedLinks(r: State, r': State, c: Uuid, u: Uuid, data: bytes)
    requires Links(r) && Fed(r, r', c, u, data)
    ensures Links(r')
  {
    KilledOneMore(r.log, FeedEntry(r, c, u, data));
    assert AllLinked(r') by {
      forall d | d in r'.clients ensures IsLinked(r', d) {
        assert IsLinked(r, d);
      }
    }
    assert AllIndexed(r') by {
      forall v, a | v in r'.servers && a in r'.servers[v].byAddress ensures IsIndexed(r', v, a) {
        assert IsIndexed(r, v, a);
      }
    }
  }

  lemma FedSettled(r: State, r': State, c: Uuid, u: Uuid, data: bytes)
    requires AllSettled(r) && Fed(r, r', c, u, data)
    ensures AllSettled(r')
  {
    forall d | d in r'.clients ensures IsSettled(r', d) {
      assert IsSettled(r, d);
    }
  }

  lemma FedSessions(r: State, r': State, c: Uuid, u: Uuid, data: bytes, v: Uuid)
    requires Links(r) && Fed(r, r', c, u, data) && v in r.servers
    ensures forall x :: x in r.servers[v].byAddress && (v != u || x != r.clients[c].address)
              ==> SessionOn(r', v, x) == SessionOn(r, v, x)
  {
    forall x | x in r.servers[v].byAddress && (v != u || x != r.clients[c].address)
      ensures SessionOn(r', v, x) == SessionOn(r, v, x)
    {
      assert IsIndexed(r, v, x);
    }
  }

  lemma FedShows(r: State, r': State, c: Uuid, u: Uuid, data: bytes, v: Uuid, board: Option<Board>)
    requires Fed(r, r', c, u, data) && IsSettled(r, c) && v in r.servers && Shows(board, r, v)
    requires v == u || r.servers[v].transport != r.servers[u].transport
    requires forall x :: x in r.servers[v].byAddress && (v != u || x != r.clients[c].address)
               ==> SessionOn(r', v, x) == SessionOn(r, v, x)
    ensures Shows(NextSeen(board, r.servers[v].transport, FeedEntry(r, c, u, data)), r', v)
  {
  }

  lemma FedBoards(r: State, r': State, c: Uuid, u: Uuid, data: bytes)
    requires Tables(r) && Links(r) && AllSettled(r) && Boards(r) && Fed(r, r', c, u, data)
    ensures Boards(r')
  {
    var e := FeedEntry(r, c, u, data);
    assert IsSettled(r, c);
    forall v | v in r'.servers ensures Shows(Seen(r'.log, r'.servers[v].transport), r', v) {
      OwnTransport(r, u, v);
      FedSessions(r, r', c, u, data, v);
      FedShows(r, r', c, u, data, v, Seen(r.log, r.servers[v].transport));
      SeenNext(r.log, e, r.servers[v].transport);
    }
    OthersUntold(r, r', u, e);
  }

  /** An entry for server u alone leaves every other board as it was. */
  lemma OthersUntold(r: State, r': State, u: Uuid, e: Entry)
    requires Tables(r) && Boards(r) && u in r.servers && e.Sent? && e.to == r.servers[u].transport
    requires r'.log == r.log + [e] && u in r'.servers && Shows(Seen(r'.log, e.to), r', u)
    requires Listed(r', e.to) && r'.transports[e.to].kind == TypeServer
    requires forall i :: Listed(r', i) && r'.transports[i].kind != TypeServer
               ==> Listed(r, i) && r.transports[i].kind != TypeServer
    ensures forall i :: Seen(r'.log, i) != None
    ensures forall i :: Listed(r', i) && r'.transports[i].kind != TypeServer ==> Seen(r'.log, i) == Some(map[])
  {
    forall i ensures Seen(r'.log, i) != None
      && (Listed(r', i) && r'.transports[i].kind != TypeServer ==> Seen(r'.log, i) == Some(map[]))
    {
      SeenNext(r.log, e, i);
    }
  }

  lemma TunnelChunkKeeps(r: State, c: Uuid, u: Uuid, data: bytes)
    requires Sound(r) && c in r.clients && r.clients[c].server == Some(u)
    ensures u in r.servers && Kept(r, TunnelChunk(r, c, u, data))
  {
    assert IsLinked(r, c);
    var r' := TunnelChunk(r, c, u, data);
    FedSound(r, r', c, u, data);
    if Apart(r) {
      FedApart(r, r', c, u, data);
    }
  }

  lemma FedSound(r: State, r': State, c: Uuid, u: Uuid, data: bytes)
    requires Sound(r) && Fed(r, r', c, u, data)
    ensures Sound(r')
  {
    var e := FeedEntry(r, c, u, data);
    FedTables(r, r', c, u, data);
    FedLinks(r, r', c, u, data);
    assert Quiet(r') by {
      assert HoldsTransport(r, e.to, TypeServer, u);
      QuietSame(r, r', e);
    }
    SumsOneMore(r.log, e);
  }

  lemma FedApart(r: State, r': State, c: Uuid, u: Uuid, data: bytes)
    requires Tables(r) && Links(r) && Apart(r) && Fed(r, r', c, u, data)
    ensures Apart(r')
  {
    FedSettled(r, r', c, u, data);
    FedBoards(r, r', c, u, data);
    assert IsSettled(r, c);
    AddressedOneMore(r.log, FeedEntry(r, c, u, data));
  }

  // ---------------------------------------------------------------- sockets open

  lemma ConnectKeeps(r: State, id: ClientId, peer: string)
    requires Sound(r)
    ensures Kept(r, Connect(r, id, peer))
  {
    if Listed(r, id) {
      KillKeeps(r, id);
    } else {
      ConnectTables(r, id, peer);
      ConnectLinks(r, id, peer);
      OpenOneMore(r.log, Opened(id));
      SumsOneMore(r.log, Opened(id));
      if Apart(r) {
        SettledSame(r, Connect(r, id, peer));
        ConnectBoards(r, id, peer);
        AddressedOneMore(r.log, Opened(id));
      }
    }
  }

  lemma ConnectTables(r: State, id: ClientId, peer: string)
    requires Tables(r) && !Listed(r, id)
    ensures Tables(Connect(r, id, peer))
  {
    var r' := Connect(r, id, peer);
    forall i | Listed(r', i) ensures IsHeld(r', i) {
      assert i != id ==> Listed(r, i) && IsHeld(r, i);
    }
    forall u | u in r.servers ensures HoldsTransport(r', r.servers[u].transport, TypeServer, u) {
      assert HoldsTransport(r, r.servers[u].transport, TypeServer, u);
    }
    forall c | c in r.clients ensures HoldsTransport(r', r.clients[c].transport, TypeClient, c) {
      assert HoldsTransport(r, r.clients[c].transport, TypeClient, c);
    }
  }

  lemma ConnectLinks(r: State, id: ClientId, peer: string)
    requires Tables(r) && Links(r) && !Listed(r, id)
    ensures Links(Connect(r, id, peer))
  {
    var r' := Connect(r, id, peer);
    KilledOneMore(r.log, Opened(id));
    assert AllLinked(r') by {
      forall c | c in r'.clients ensures IsLinked(r', c) {
        assert IsLinked(r, c) && HoldsTransport(r, r.clients[c].transport, TypeClient, c);
      }
    }
    assert AllIndexed(r') by {
      forall v, a | v in r'.servers && a in r'.servers[v].byAddress ensures IsIndexed(r', v, a) {
        assert IsIndexed(r, v, a);
      }
    }
  }

  lemma ConnectBoards(r: State, id: ClientId, peer: string)
    requires Tables(r) && Boards(r) && !Listed(r, id)
    ensures Boards(Connect(r, id, peer))
  {
    var r' := Connect(r, id, peer);
    SeenOneMore(r.log, Opened(id));
    forall u | u in r.servers ensures Shows(Seen(r'.log, r.servers[u].transport), r', u) {
      assert Shows(Seen(r.log, r.servers[u].transport), r, u);
      assert HoldsTransport(r, r.servers[u].transport, TypeServer, u);
    }
  }

  // ---------------------------------------------------------------- sockets close

  ghost predicate Unlisted(r: State, r': State, id: ClientId) {
    && Listed(r, id) && r'.transports.Keys == r.transports.Keys
    && (forall i :: i in r.transports && i != id ==> r'.transports[i] == r.transports[i])
    && !r'.transports[id].listed
    && r'.jsonClients == r.jsonClients - {id}
    && r'.troughputCounter == r.troughputCounter
  }

  /** Closing a socket, then writing nothing, a kill or a notification for an open socket. */
  predicate IsParting(r': State, e: Entry) {
    e.Killed? || (e.Sent? && Listed(r', e.to) && Payload(e) == 0)
  }

  ghost predicate Closes(r: State, r': State, id: ClientId, rest: seq<Entry>) {
    && Unlisted(r, r', id) && r'.log == r.log + [Closed(id)] + rest && |rest| <= 1
    && forall e :: e in rest ==> IsParting(r', e)
  }

  lemma CloseIsQuiet(r: State, r': State, id: ClientId, rest: seq<Entry>)
    requires Quiet(r) && Closes(r, r', id, rest)
    ensures Quiet(r')
  {
    assert forall i :: Listed(r', i) <==> Listed(r, i) && i != id;
    OpenOneMore(r.log, Closed(id));
    if rest == [] {
      assert r'.log == r.log + [Closed(id)];
    } else {
      assert rest == [rest[0]] && IsParting(r', rest[0]);
      OpenOneMore(r.log + [Closed(id)], rest[0]);
    }
  }

  lemma CloseConserves(r: State, r': State, id: ClientId, rest: seq<Entry>)
    requires Conserved(r) && Closes(r, r', id, rest)
    ensures Conserved(r')
  {
    SumsOneMore(r.log, Closed(id));
    if rest == [] {
      assert r'.log == r.log + [Closed(id)];
    } else {
      assert rest == [rest[0]] && IsParting(r', rest[0]);
      SumsOneMore(r.log + [Closed(id)], rest[0]);
    }
  }

  lemma CloseKeeps(r: State, r': State, id: ClientId, rest: seq<Entry>)
    requires Quiet(r) && Conserved(r) && Closes(r, r', id, rest)
    ensures Quiet(r') && Conserved(r')
  {
    CloseIsQuiet(r, r', id, rest);
    CloseConserves(r, r', id, rest);
  }

  lemma KilledMore(r: State, r': State, id: ClientId, rest: seq<Entry>)
    requires r'.log == r.log + [Closed(id)] + rest && |rest| <= 1 && forall e :: e in rest ==> !e.Opened?
    ensures forall i :: IsKilled(r.log, i) ==> IsKilled(r'.log, i)
  {
    KilledOneMore(r.log, Closed(id));
    if rest == [] {
      assert r'.log == r.log + [Closed(id)];
    } else {
      assert rest == [rest[0]];
      KilledOneMore(r.log + [Closed(id)], rest[0]);
    }
  }

  lemma AddressedMore(r: State, r': State, id: ClientId, rest: seq<Entry>)
    requires Addressed(r.log) && r'.log == r.log + [Closed(id)] + rest && forall e :: e in rest ==> IsAddressed(e)
    ensures Addressed(r'.log)
  {
    forall n | 0 <= n < |r'.log| ensures IsAddressed(r'.log[n]) {
      assert n > |r.log| ==> r'.log[n] in rest;
    }
  }

  lemma SeenAfterClose(r: State, r': State, id: ClientId, rest: seq<Entry>, i: ClientId)
    requires r'.log == r.log + [Closed(id)] + rest && |rest| <= 1
    ensures Seen(r'.log, i) == if rest == [] then Seen(r.log, i) else NextSeen(Seen(r.log, i), i, rest[0])
  {
    SeenNext(r.log, Closed(id), i);
    if rest == [] {
      assert r'.log == r.log + [Closed(id)];
    } else {
      assert rest == [rest[0]];
      SeenNext(r.log + [Closed(id)], rest[0], i);
    }
  }

  /** The server on transport id is gone, and its clients are orphans that were killed. */
  ghost predicate ServerGone(r: State, r': State, id: ClientId, u: Uuid, ids: set<ClientId>) {
    && Unlisted(r, r', id) && HoldsTransport(r, id, TypeServer, u) && u in r.servers && r.servers[u].transport == id
    && r'.servers.Keys == r.servers.Keys - {u}
    && (forall v :: v in r.servers && v != u ==> r'.servers[v] == r.servers[v])
    && r'.clients.Keys == r.clients.Keys
    && (forall c :: c in r.clients ==>
          r'.clients[c] == if c in r.servers[u].byUuid then Orphan(r.clients[c]) else r.clients[c])
    && (forall c :: c in r.clients && c in r.servers[u].byUuid ==> r.clients[c].transport in ids)
    && r'.log == r.log + [Closed(id)] + [Killed(ids)]
  }

  lemma DisconnectServerIs(r: State, id: ClientId) returns (ids: set<ClientId>)
    requires Tables(r) && Listed(r, id) && r.transports[id].kind == TypeServer
    ensures ServerGone(r, Disconnect(r, id), id, r.transports[id].uuid, ids)
  {
    assert IsHeld(r, id);
    var r1, u := Unlist(r, id), r.transports[id].uuid;
    assert Disconnect(r, id) == DropServer(r1, u);
    ids := set c | c in r.servers[u].byUuid :: ClientTransport(r1, c);
    forall c | c in r.clients && c in r.servers[u].byUuid ensures r.clients[c].transport in ids {
      assert ClientTransport(r1, c) in ids;
    }
  }

  lemma ServerGoneTables(r: State, r': State, id: ClientId, u: Uuid, ids: set<ClientId>)
    requires Tables(r) && Links(r) && ServerGone(r, r', id, u, ids)
    ensures Tables(r')
  {
    forall i | Listed(r', i) ensures IsHeld(r', i) {
      assert Listed(r, i) && IsHeld(r, i);
    }
    forall v | v in r'.servers ensures HoldsTransport(r', r'.servers[v].transport, TypeServer, v) {
      assert HoldsTransport(r, r.servers[v].transport, TypeServer, v);
    }
    forall c | c in r'.clients ensures HoldsTransport(r', r'.clients[c].transport, TypeClient, c) {
      assert HoldsTransport(r, r.clients[c].transport, TypeClient, c);
    }
  }

  lemma ServerGoneLinks(r: State, r': State, id: ClientId, u: Uuid, ids: set<ClientId>)
    requires Links(r) && ServerGone(r, r', id, u, ids)
    ensures Links(r')
  {
    KilledMore(r, r', id, [Killed(ids)]);
    assert forall i :: i in ids ==> IsKilled(r'.log, i) by {
      KilledOneMore(r.log + [Closed(id)], Killed(ids));
    }
    assert AllLinked(r') by {
      forall c | c in r'.clients ensures IsLinked(r', c) {
        assert IsLinked(r, c);
      }
    }
    ServerGoneIndexed(r, r', id, u, ids);
  }

  lemma ServerGoneIndexed(r: State, r': State, id: ClientId, u: Uuid, ids: set<ClientId>)
    requires Links(r) && ServerGone(r, r', id, u, ids)
    ensures AllIndexed(r') && AllMembers(r')
  {
    forall v, a | v in r'.servers && a in r'.servers[v].byAddress ensures IsIndexed(r', v, a) {
      assert IsIndexed(r, v, a);
    }
  }

  lemma ServerGoneBoards(r: State, r': State, id: ClientId, u: Uuid, ids: set<ClientId>)
    requires Boards(r) && ServerGone(r, r', id, u, ids)
    ensures Boards(r')
  {
    forall v | v in r'.servers ensures Shows(Seen(r'.log, r'.servers[v].transport), r', v) {
      SeenAfterClose(r, r', id, [Killed(ids)], r.servers[v].transport);
      assert Shows(Seen(r.log, r.servers[v].transport), r, v);
    }
    forall i ensures Seen(r'.log, i) == Seen(r.log, i) {
      SeenAfterClose(r, r', id, [Killed(ids)], i);
    }
  }

  lemma ServerGoneSettled(r: State, r': State, id: ClientId, u: Uuid, ids: set<ClientId>)
    requires AllSettled(r) && ServerGone(r, r', id, u, ids)
    ensures AllSettled(r')
  {
    forall c | c in r'.clients ensures IsSettled(r', c) {
      assert IsSettled(r, c);
    }
  }

  lemma DisconnectServerKeeps(r: State, id: ClientId)
    requires Sound(r) && Listed(r, id) && r.transports[id].kind == TypeServer
    ensures Kept(r, Disconnect(r, id))
  {
    var ids := DisconnectServerIs(r, id);
    ServerGoneKeeps(r, Disconnect(r, id), id, r.transports[id].uuid, ids);
  }

  lemma ServerGoneKeeps(r: State, r': State, id: ClientId, u: Uuid, ids: set<ClientId>)
    requires Sound(r) && ServerGone(r, r', id, u, ids)
    ensures Kept(r, r')
  {
    ServerGoneTables(r, r', id, u, ids);
    ServerGoneLinks(r, r', id, u, ids);
    CloseKeeps(r, r', id, [Killed(ids)]);
    if Apart(r) {
      ServerGoneSettled(r, r', id, u, ids);
      ServerGoneBoards(r, r', id, u, ids);
      AddressedMore(r, r', id, [Killed(ids)]);
    }
  }

  /** The client c on transport id is gone; the server it was attached to, if any, no longer
      indexes it and was told so. */
  ghost predicate ClientGone(r: State, r': State, id: ClientId, c: Uuid, rest: seq<Entry>) {
    && Unlisted(r, r', id) && HoldsTransport(r, id, TypeClient, c) && c in r.clients && r.clients[c].transport == id
    && r'.clients == r.clients - {c}
    && r'.servers.Keys == r.servers.Keys
    && (forall v :: v in r.servers ==>
          r'.servers[v] == if r.clients[c].server == Some(v) then Detach(r.servers[v], c, r.clients[c].address)
              else r.servers[v])
    && r'.log == r.log + [Closed(id)] + rest
    && if r.clients[c].server.None? then rest == [] else IsFarewell(r, r.clients[c], rest)
  }

  ghost predicate IsFarewell(r: State, c: ClientConnection, rest: seq<Entry>)
    requires c.server.Some?
  {
    && |rest| == 1 && c.server.value in r.servers
    && rest[0].Sent? && rest[0].to == r.servers[c.server.value].transport
    && Told(rest[0].message) == Some(End({c.address})) && Payload(rest[0]) == 0
  }

  /** What the server of a client that left is told, if there still is one. */
  function Farewell(r: State, c: ClientConnection): seq<Entry> {
    if c.server.None? || c.server.value !in r.servers then []
    else [Letter(r, r.servers[c.server.value].transport, ClientDisconnected(r.notificationId, c.address))]
  }

  lemma DisconnectClientIs(r: State, id: ClientId) returns (rest: seq<Entry>)
    requires Tables(r) && Links(r) && Listed(r, id) && r.transports[id].kind == TypeClient
    ensures ClientGone(r, Disconnect(r, id), id, r.transports[id].uuid, rest)
    ensures rest == Farewell(r, r.clients[r.transports[id].uuid])
  {
    var r1, c := Unlist(r, id), r.transports[id].uuid;
    assert IsHeld(r, id) && IsLinked(r, c);
    assert Disconnect(r, id) == DropClient(r1, c);
    rest := Farewell(r, r.clients[c]);
    if r.clients[c].server.None? {
      assert r1.log + [] == r1.log;
    } else {
      var to := r.servers[r.clients[c].server.value].transport;
      assert HoldsTransport(r, to, TypeServer, r.clients[c].server.value);
      assert Disconnect(r, id).log == r1.log + rest;
    }
  }

  lemma ClientGoneTables(r: State, r': State, id: ClientId, c: Uuid, rest: seq<Entry>)
    requires Tables(r) && ClientGone(r, r', id, c, rest)
    ensures Tables(r')
  {
    forall i | Listed(r', i) ensures IsHeld(r', i) {
      assert Listed(r, i) && IsHeld(r, i);
    }
    forall v | v in r'.servers ensures HoldsTransport(r', r'.servers[v].transport, TypeServer, v) {
      assert HoldsTransport(r, r.servers[v].transport, TypeServer, v);
    }
    forall d | d in r'.clients ensures HoldsTransport(r', r'.clients[d].transport, TypeClient, d) {
      assert HoldsTransport(r, r.clients[d].transport, TypeClient, d);
    }
  }

  lemma ClientGoneLinks(r: State, r': State, id: ClientId, c: Uuid, rest: seq<Entry>)
    requires Links(r) && ClientGone(r, r', id, c, rest)
    ensures Links(r')
  {
    KilledMore(r, r', id, rest);
    assert IsLinked(r, c);
    assert AllLinked(r') by {
      forall d | d in r'.clients ensures IsLinked(r', d) {
        assert IsLinked(r, d);
      }
    }
    assert AllIndexed(r') by {
      forall v, a | v in r'.servers && a in r'.servers[v].byAddress ensures IsIndexed(r', v, a) {
        assert IsIndexed(r, v, a);
      }
    }
  }

  lemma ClientGoneSettled(r: State, r': State, id: ClientId, c: Uuid, rest: seq<Entry>)
    requires AllSettled(r) && ClientGone(r, r', id, c, rest)
    ensures AllSettled(r')
  {
    assert IsSettled(r, c);
    forall d | d in r'.clients ensures IsSettled(r', d) {
      assert IsSettled(r, d);
    }
  }

  lemma ClientGoneSessions(r: State, r': State, id: ClientId, c: Uuid, rest: seq<Entry>, v: Uuid)
    requires Links(r) && ClientGone(r, r', id, c, rest) && v in r.servers
    ensures forall a :: a in r'.servers[v].byAddress ==>
              a in r.servers[v].byAddress && SessionOn(r', v, a) == SessionOn(r, v, a)
  {
    forall a | a in r'.servers[v].byAddress
      ensures a in r.servers[v].byAddress && SessionOn(r', v, a) == SessionOn(r, v, a)
    {
      assert IsIndexed(r, v, a);
    }
  }

  lemma ClientGoneShows(r: State, r': State, id: ClientId, c: Uuid, rest: seq<Entry>, v: Uuid)
    requires Links(r) && AllSettled(r) && ClientGone(r, r', id, c, rest) && v in r.servers
    requires r.clients[c].server.Some? ==> r.clients[c].server == Some(v) || rest[0].to != r.servers[v].transport
    requires Shows(Seen(r.log, r.servers[v].transport), r, v)
    ensures Shows(Seen(r'.log, r.servers[v].transport), r', v)
  {
    ClientGoneSessions(r, r', id, c, rest, v);
    SeenAfterClose(r, r', id, rest, r.servers[v].transport);
    assert IsSettled(r, c);
  }

  lemma ClientGoneBoards(r: State, r': State, id: ClientId, c: Uuid, rest: seq<Entry>)
    requires Tables(r) && Links(r) && AllSettled(r) && Boards(r) && ClientGone(r, r', id, c, rest)
    ensures Boards(r')
  {
    forall v | v in r'.servers ensures Shows(Seen(r'.log, r'.servers[v].transport), r', v) {
      if r.clients[c].server.Some? {
        OwnTransport(r, r.clients[c].server.value, v);
      }
      ClientGoneShows(r, r', id, c, rest, v);
    }
    forall i
      ensures Seen(r'.log, i) != None
      ensures Listed(r', i) && r'.transports[i].kind != TypeServer ==> Seen(r'.log, i) == Some(map[])
    {
      SeenAfterClose(r, r', id, rest, i);
      if rest != [] && rest[0].to == i {
        assert IsLinked(r, c) && HoldsTransport(r, i, TypeServer, r.clients[c].server.value);
        assert Shows(Seen(r'.log, i), r', r.clients[c].server.value);
      }
    }
  }

  lemma DisconnectClientKeeps(r: State, id: ClientId)
    requires Sound(r) && Listed(r, id) && r.transports[id].kind == TypeClient
    ensures Kept(r, Disconnect(r, id))
  {
    var rest := DisconnectClientIs(r, id);
    ClientGoneKeeps(r, Disconnect(r, id), id, r.transports[id].uuid, rest);
  }

  lemma FarewellReaches(r: State, r': State, id: ClientId, c: Uuid, rest: seq<Entry>)
    requires Tables(r) && ClientGone(r, r', id, c, rest)
    ensures forall e :: e in rest ==> IsParting(r', e)
  {
    if r.clients[c].server.Some? {
      assert HoldsTransport(r, rest[0].to, TypeServer, r.clients[c].server.value);
    }
  }

  lemma ClientGoneSound(r: State, r': State, id: ClientId, c: Uuid, rest: seq<Entry>)
    requires Sound(r) && ClientGone(r, r', id, c, rest)
    ensures Sound(r')
  {
    ClientGoneTables(r, r', id, c, rest);
    ClientGoneLinks(r, r', id, c, rest);
    FarewellReaches(r, r', id, c, rest);
    CloseKeeps(r, r', id, rest);
  }

  lemma FarewellIsAddressed(r: State, r': State, id: ClientId, c: Uuid, rest: seq<Entry>)
    requires Addressed(r.log) && ClientGone(r, r', id, c, rest)
    ensures Addressed(r'.log)
  {
    forall e | e in rest ensures IsAddressed(e) {
    }
    AddressedMore(r, r', id, rest);
  }

  lemma ClientGoneApart(r: State, r': State, id: ClientId, c: Uuid, rest: seq<Entry>)
    requires Tables(r) && Links(r) && Apart(r) && ClientGone(r, r', id, c, rest)
    ensures Apart(r')
  {
    ClientGoneSettled(r, r', id, c, rest);
    ClientGoneBoards(r, r', id, c, rest);
    FarewellIsAddressed(r, r', id, c, rest);
  }

  lemma ClientGoneKeeps(r: State, r': State, id: ClientId, c: Uuid, rest: seq<Entry>)
    requires Sound(r) && ClientGone(r, r', id, c, rest)
    ensures Kept(r, r')
  {
    ClientGoneSound(r, r', id, c, rest);
    if Apart(r) {
      ClientGoneApart(r, r', id, c, rest);
    }
  }

  lemma StrangerGoneTables(r: State, r': State, id: ClientId)
    requires Tables(r) && Unlisted(r, r', id) && r.transports[id].kind == TypeNone
    requires r'.servers == r.servers && r'.clients == r.clients
    ensures Tables(r')
  {
    forall i | Listed(r', i) ensures IsHeld(r', i) {
      assert Listed(r, i) && IsHeld(r, i);
    }
    forall v | v in r'.servers ensures HoldsTransport(r', r'.servers[v].transport, TypeServer, v) {
      assert HoldsTransport(r, r.servers[v].transport, TypeServer, v);
    }
    forall d | d in r'.clients ensures HoldsTransport(r', r'.clients[d].transport, TypeClient, d) {
      assert HoldsTransport(r, r.clients[d].transport, TypeClient, d);
    }
  }

  lemma DisconnectStrangerKeeps(r: State, id: ClientId)
    requires Sound(r) && Listed(r, id) && r.transports[id].kind == TypeNone
    ensures Kept(r, Disconnect(r, id))
  {
    var r' := Disconnect(r, id);
    assert r'.log == r.log + [Closed(id)] + [];
    StrangerGoneTables(r, r', id);
    KilledMore(r, r', id, []);
    LinksSame(r, r');
    CloseKeeps(r, r', id, []);
    if Apart(r) {
      SettledSame(r, r');
      SeenOneMore(r.log, Closed(id));
      BoardsSame(r, r');
      AddressedMore(r, r', id, []);
    }
  }

  lemma DisconnectKeeps(r: State, id: ClientId)
    requires Sound(r)
    ensures Kept(r, Disconnect(r, id))
  {
    if Listed(r, id) {
      match r.transports[id].kind
      case TypeServer => DisconnectServerKeeps(r, id);
      case TypeClient => DisconnectClientKeeps(r, id);
      case TypeNone => DisconnectStrangerKeeps(r, id);
    }
  }
}
