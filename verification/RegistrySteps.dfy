/** What each event does to the proxy, on Step and in terms of its tables and its log: the
    events that carry no data, and the chunks of a socket that still speaks plain JSON. */
module RegistrySteps {
  import opened Bytes
  import opened Messages
  import opened Registry
  import opened RegistryInvariant
  import opened RegistryRuns
  import opened RegistryCalls
  import opened RegistryWrites
  import JsonStream
  import RegistryAnswers

  // ---------------------------------------------------------------- sockets come and go

  /** Of the sockets only id may have changed. */
  ghost predicate OtherSocketsSame(r: State, r': State, id: ClientId) {
    && (forall i :: i != id ==> (i in r'.transports <==> i in r.transports))
    && (forall i :: i != id && i in r.transports && i in r'.transports ==> r'.transports[i] == r.transports[i])
  }

  predicate SameCounters(r: State, r': State) {
    r'.troughput == r.troughput && r'.troughputCounter == r.troughputCounter
  }

  /** A socket that connects is listed, has no role, and is heard by the JSON server. If its
      id is in use it is killed, and nothing changes. */
  lemma ConnectedExactly(read: bytes -> Request, r: State, id: ClientId, peer: string)
    ensures var r' := Step(read, r, Connected(id, peer));
            && (Listed(r, id) ==> r' == r.(log := r.log + [Killed({id})]))
            && (!Listed(r, id) ==>
                  && Unregistered(r', id) && r'.transports[id].peer == peer && r'.transports[id].buffer == []
                  && !r'.transports[id].slip && !r'.transports[id].slipAfter && !r'.transports[id].killRequested
                  && r'.jsonClients == r.jsonClients + {id} && OtherSocketsSame(r, r', id)
                  && r'.servers == r.servers && r'.clients == r.clients && r'.notificationId == r.notificationId
                  && SameCounters(r, r') && r'.log == r.log + [Opened(id)])
  {
  }

  /** A disconnect is noted once. */
  lemma DisconnectedExactly(read: bytes -> Request, r: State, id: ClientId)
    ensures var r' := Step(read, r, Disconnected(id));
            && (!Listed(r, id) ==> r' == r)
            && (Listed(r, id) ==>
                  && !Listed(r', id) && r'.jsonClients == r.jsonClients - {id} && OtherSocketsSame(r, r', id)
                  && SameCounters(r, r') && r.log + [Closed(id)] <= r'.log
                  && (Unregistered(r, id) ==>
                        r'.servers == r.servers && r'.clients == r.clients && r'.log == r.log + [Closed(id)]
                        && r'.notificationId == r.notificationId))
  {
  }

  /** A client's socket has gone: the client is taken from both indexes of its server, which
      is told under the client's address; a client without a server goes silently. */
  lemma ClientGoesExactly(read: bytes -> Request, r: State, id: ClientId, c: Uuid)
    requires Tables(r) && Links(r) && HoldsTransport(r, id, TypeClient, c)
    ensures var r', client := Step(read, r, Disconnected(id)), r.clients[c];
            && r'.clients == r.clients - {c}
            && (client.server.None? ==> r'.servers == r.servers && r'.log == r.log + [Closed(id)])
            && (client.server.Some? ==>
                  var u, a := client.server.value, client.address;
                  && u in r.servers && r'.servers.Keys == r.servers.Keys
                  && (forall v :: v in r.servers && v != u ==> r'.servers[v] == r.servers[v])
                  && r'.servers[u].byAddress == r.servers[u].byAddress - {a}
                     && r'.servers[u].byUuid == r.servers[u].byUuid - {c}
                  && r'.servers[u].transport == r.servers[u].transport && r'.servers[u].counter == r.servers[u].counter
                  && r'.notificationId == r.notificationId + 1
                  && r'.log == r.log + [Closed(id)]
                     + [Letter(r, r.servers[u].transport, ClientDisconnected(r.notificationId, a))])
  {
    assert IsHeld(r, id) && IsLinked(r, c);
    var r1 := Unlist(r, id);
    assert Step(read, r, Disconnected(id)) == DropClient(r1, c);
    if r.clients[c].server.Some? {
      var u := r.clients[c].server.value;
      assert HoldsTransport(r, r.servers[u].transport, TypeServer, u);
    }
  }

  /** Client c is one of those attached to server u. */
  predicate IsClientOf(r: State, c: Uuid, u: Uuid) {
    c in r.clients && r.clients[c].server == Some(u)
  }

  /** A server's socket has gone: the server is taken from the table, each client it had is
      left without a server and address, and exactly the sockets of these are killed. */
  lemma ServerGoesExactly(read: bytes -> Request, r: State, id: ClientId, u: Uuid)
    requires Sound(r) && HoldsTransport(r, id, TypeServer, u)
    ensures var r', ids := Step(read, r, Disconnected(id)), ClientSockets(r, u);
            && r'.servers == r.servers - {u} && r'.clients.Keys == r.clients.Keys
            && (forall c :: c in r.clients ==>
                  r'.clients[c] == if IsClientOf(r, c, u) then Orphan(r.clients[c]) else r.clients[c])
            && r'.log == r.log + [Closed(id)] + [Killed(ids)] && r'.notificationId == r.notificationId
  {
    assert IsHeld(r, id);
    var r1 := Unlist(r, id);
    var r' := Step(read, r, Disconnected(id));
    assert r' == DropServer(r1, u);
    forall c | c in r.clients ensures c in r.servers[u].byUuid <==> IsClientOf(r, c, u) {
      assert IsLinked(r, c);
    }
    assert (set c | c in r.servers[u].byUuid :: ClientTransport(r1, c)) == ClientSockets(r, u);
  }

  /** The sockets of a server's clients. */
  function ClientSockets(r: State, u: Uuid): set<ClientId> {
    set c | c in r.clients && IsClientOf(r, c, u) :: r.clients[c].transport
  }

  /** Inactivity kills a socket, and changes nothing else. */
  lemma InactiveExactly(read: bytes -> Request, r: State, id: ClientId)
    ensures Step(read, r, Inactive(id)) == r.(log := r.log + [Killed({id})])
  {
  }

  /** Each tick publishes exactly the payload bytes forwarded since the tick before, and
      changes nothing else. */
  lemma TicksPublishTheTraffic(read: bytes -> Request, r: State)
    requires Conserved(r)
    ensures var r', traffic := Step(read, r, Tick), Carried(r.log) - PublishedSum(r.log);
            && r' == r.(troughput := r'.troughput, troughputCounter := 0, log := r.log + [Published(r'.troughput)])
            && r'.troughput == traffic && PublishedSum(r'.log) == Carried(r'.log)
  {
    SumsOneMore(r.log, Published(r.troughputCounter));
  }

  // ---------------------------------------------------------------- plain chunks

  /** A socket on which JSON is spoken in plain. */
  predicate SpeaksPlain(r: State, id: ClientId) {
    && Listed(r, id) && r.transports[id].kind != TypeClient
    && !(r.transports[id].kind == TypeServer && r.transports[id].slip)
  }

  /** Data of nobody changes nothing. */
  lemma StrangersAreIgnored(read: bytes -> Request, r: State, id: ClientId, data: bytes, hangups: seq<seq<ClientId>>)
    requires !Listed(r, id)
    ensures Step(read, r, Data(id, data, hangups)) == r
  {
  }

  /** A plain chunk that leaves too much in the buffer kills the socket, and none of its
      packets is handled. */
  lemma OverflowIsKilled(read: bytes -> Request, r: State, id: ClientId, data: bytes, hangups: seq<seq<ClientId>>)
    requires Tables(r) && SpeaksPlain(r, id)
    requires |JsonStream.Ingest(r.transports[id].buffer, data).buffer| > 10240
    ensures var r' := Step(read, r, Data(id, data, hangups));
            && r'.log == r.log + [Killed({id})] && r'.servers == r.servers && r'.clients == r.clients
            && r'.jsonClients == r.jsonClients && OtherSocketsSame(r, r', id)
            && r'.transports[id] == r.transports[id].(buffer := JsonStream.Ingest(r.transports[id].buffer, data).buffer)
  {
  }

  /** A plain chunk is answered packet by packet, each once, on its own socket, in order, and
      under the packet's id. */
  lemma PlainChunkIsAnswered(read: bytes -> Request, r: State, id: ClientId, data: bytes, hangups: seq<seq<ClientId>>)
    requires Tables(r) && SpeaksPlain(r, id)
    requires |JsonStream.Ingest(r.transports[id].buffer, data).buffer| <= 10240
    ensures RegistryAnswers.Answered(read, r, Step(read, r, Data(id, data, hangups)), id,
                                     JsonStream.Ingest(r.transports[id].buffer, data).Packets())
  {
    RegistryAnswers.ChunkIsAnswered(read, r, Data(id, data, hangups), []);
  }

  /** The state after some events from r on. */
  function Later(read: bytes -> Request, r: State, es: seq<Event>): State {
    if es == [] then r else Step(read, Later(read, r, es[..|es| - 1]), es[|es| - 1])
  }

  lemma {:induction false} LaterRuns(read: bytes -> Request, es: seq<Event>, more: seq<Event>)
    ensures Run(read, es + more) == Later(read, Run(read, es), more)
  {
    if more == [] {
      assert es + more == es;
    } else {
      assert (es + more)[..|es + more| - 1] == es + more[..|more| - 1];
      LaterRuns(read, es, more[..|more| - 1]);
    }
  }

  lemma {:induction false} LaterChains(read: bytes -> Request, r: State, es: seq<Event>, more: seq<Event>)
    ensures Later(read, r, es + more) == Later(read, Later(read, r, es), more)
  {
    if more == [] {
      assert es + more == es;
    } else {
      assert (es + more)[..|es + more| - 1] == es + more[..|more| - 1];
      LaterChains(read, r, es, more[..|more| - 1]);
    }
  }

  /** Chunks of one socket, with nothing between them. */
  function Arriving(id: ClientId, chunks: seq<bytes>): (es: seq<Event>)
    ensures |es| == |chunks| && forall i :: 0 <= i < |chunks| ==> es[i] == Data(id, chunks[i], [])
  {
    seq(|chunks|, i requires 0 <= i < |chunks| => Data(id, chunks[i], []))
  }

  lemma LastArriving(read: bytes -> Request, r: State, id: ClientId, chunks: seq<bytes>)
    requires chunks != []
    ensures Later(read, r, Arriving(id, chunks))
            == Step(read, Later(read, r, Arriving(id, chunks[..|chunks| - 1])), Data(id, chunks[|chunks| - 1], []))
  {
    var n := |chunks| - 1;
    assert Arriving(id, chunks)[..n] == Arriving(id, chunks[..n]);
  }

  /** One text in chunks of its own, cut behind no brace and not too long. */
  ghost predicate Brings(chunks: seq<bytes>, text: bytes) {
    && Concat(chunks) == text && JsonStream.CutSafely(chunks)
    && JsonStream.Unsplit(text) && JsonStream.EndsPacket(text) && |text| <= MAX_BUFFER
  }

  lemma {:induction false} PartOfPacket(read: bytes -> Request, r: State, id: ClientId, chunks: seq<bytes>)
    requires Tables(r) && SpeaksPlain(r, id) && r.transports[id].buffer == []
    requires JsonStream.Unsplit(Concat(chunks)) && JsonStream.CutSafely(chunks)
    requires !JsonStream.EndsPacket(Concat(chunks))
    requires |Concat(chunks)| <= MAX_BUFFER
    ensures Later(read, r, Arriving(id, chunks)) == WithBuffer(r, id, Concat(chunks))
  {
    if chunks == [] {
      assert WithBuffer(r, id, []) == r;
    } else {
      var n := |chunks| - 1;
      var before := Concat(chunks[..n]);
      JsonStream.ConcatPrefix(chunks);
      JsonStream.UnsplitPrefix(Concat(chunks), |before|);
      JsonStream.CutSafelyButLast(chunks);
      PartOfPacket(read, r, id, chunks[..n]);
      LastArriving(read, r, id, chunks);
      ChunkIsHeld(read, r, id, before, chunks[n]);
    }
  }

  lemma ChunkIsHeld(read: bytes -> Request, r: State, id: ClientId, buffer: bytes, data: bytes)
    requires Tables(r) && SpeaksPlain(r, id) && JsonStream.Unsplit(buffer + data)
    requires !JsonStream.EndsPacket(buffer + data)
    requires |buffer + data| <= MAX_BUFFER
    ensures Step(read, WithBuffer(r, id, buffer), Data(id, data, [])) == WithBuffer(r, id, buffer + data)
  {
    var s := WithBuffer(r, id, buffer);
    assert JsonStream.Ingest(buffer, data) == JsonStream.Ingested([], None, buffer + data);
    assert WithBuffer(s, id, buffer + data) == WithBuffer(r, id, buffer + data);
    assert JsonStream.Ingest(buffer, data).Packets() == [];
  }

  lemma ChunkEndsIt(read: bytes -> Request, r: State, id: ClientId, buffer: bytes, data: bytes)
    requires Tables(r) && SpeaksPlain(r, id) && r.transports[id].buffer == []
    requires JsonStream.Unsplit(buffer + data) && JsonStream.EndsPacket(buffer + data)
    ensures Step(read, WithBuffer(r, id, buffer), Data(id, data, [])) == HandlePacket(read, r, id, buffer + data)
  {
    var s := WithBuffer(r, id, buffer);
    JsonStream.LastChunk(buffer, data);
    assert WithBuffer(s, id, []) == r;
    OneItem(read, r, id, buffer + data);
  }

  lemma OneItem(read: bytes -> Request, r: State, id: ClientId, packet: bytes)
    ensures HandleItems(read, r, id, [packet], false, []) == HandlePacket(read, r, id, packet)
  {
    var items: seq<bytes> := [packet];
    assert items[..0] == [];
    assert HandleItems(read, r, id, items[..0], false, []) == r;
    assert DisconnectAll(HandlePacket(read, r, id, packet), []) == HandlePacket(read, r, id, packet);
  }

  /** However a packet is cut, a plain socket with nothing left over has it handled whole. */
  lemma PacketInChunks(read: bytes -> Request, r: State, id: ClientId, chunks: seq<bytes>, text: bytes)
    requires Tables(r) && SpeaksPlain(r, id) && r.transports[id].buffer == [] && Brings(chunks, text)
    ensures Later(read, r, Arriving(id, chunks)) == HandlePacket(read, r, id, text)
  {
    var n := |chunks| - 1;
    var before := Concat(chunks[..n]);
    JsonStream.ConcatPrefix(chunks);
    JsonStream.UnsplitPrefix(text, |before|);
    JsonStream.CutSafelyButLast(chunks);
    PartOfPacket(read, r, id, chunks[..n]);
    LastArriving(read, r, id, chunks);
    ChunkEndsIt(read, r, id, before, chunks[n]);
  }
}
