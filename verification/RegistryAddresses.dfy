/** Which address a client gets, over whole runs and in terms of nothing but what its server
    is told: the n-th session ever to begin on a server's socket begins on the first address
    that is free then, counting from n on. */
module RegistryAddresses {
  import opened Bytes
  import opened Sessions
  import opened Messages
  import opened AddressAllocator
  import opened Registry
  import opened RegistryInvariant
  import opened RegistryRuns
  import opened RegistryWrites
  import JsonStream
  import Framing
  import SlipDataProcessor

  /** How many sessions have begun. */
  function Begun(story: seq<SessionEvent>): nat {
    if story == [] then 0 else Begun(story[..|story| - 1]) + if story[|story| - 1].Begin? then 1 else 0
  }

  /** Address a is the first from n on, in cyclic order, that is neither in use nor reserved,
      and the search gets that far. */
  ghost predicate IsFirstFree(used: set<u16>, n: nat, a: u16) {
    exists k: nat :: k <= CONNECTION_LIMIT && IsFirstFreeAt(used, n, k, a)
  }

  ghost predicate IsFirstFreeAt(used: set<u16>, n: nat, k: nat, a: u16) {
    a == From(n, k) && !Blocked(used, a) && forall j: nat :: j < k ==> Blocked(used, From(n, j))
  }

  /** The k-th address from n on, in cyclic order. */
  function From(n: nat, k: nat): u16 {
    Wrap(n + k)
  }

  /** The session that begins at i takes its turn: the addresses in use are those on which
      sessions are open, and the count is that of the sessions begun so far, with this one. */
  ghost predicate TakesTurn(story: seq<SessionEvent>, i: nat)
    requires i < |story| && story[i].Begin?
  {
    Track(story[..i]).Some? && IsFirstFree(Track(story[..i]).value.Keys, Begun(story[..i]) + 1, story[i].address)
  }

  ghost predicate InTurn(story: seq<SessionEvent>) {
    forall i :: 0 <= i < |story| && story[i].Begin? ==> TakesTurn(story, i)
  }

  lemma OneMoreTurn(story: seq<SessionEvent>, e: SessionEvent)
    requires InTurn(story)
    requires e.Begin? ==> Track(story).Some? && IsFirstFree(Track(story).value.Keys, Begun(story) + 1, e.address)
    ensures InTurn(story + [e]) && Begun(story + [e]) == Begun(story) + if e.Begin? then 1 else 0
  {
    var all := story + [e];
    assert all[..|story|] == story;
    forall i | 0 <= i < |all| && all[i].Begin? ensures TakesTurn(all, i) {
      assert i < |story| ==> all[..i] == story[..i] && TakesTurn(story, i);
    }
  }

  // ---------------------------------------------------------------- what every step keeps

  /** The counter of a server is the number of sessions it has been told of, in 16 bits. */
  ghost predicate IsCounted(r: State, u: Uuid)
    requires u in r.servers
  {
    r.servers[u].counter == Wrap(Begun(StoryOf(r, r.servers[u].transport)))
  }

  /** A socket that is no server's has never been told that a session begins. */
  ghost predicate IsUntold(r: State, id: ClientId) {
    Listed(r, id) && r.transports[id].kind != TypeServer ==> Begun(StoryOf(r, id)) == 0
  }

  ghost predicate Turns(r: State) {
    && (forall u :: u in r.servers ==> IsCounted(r, u))
    && (forall id :: IsUntold(r, id))
    && (forall id :: InTurn(StoryOf(r, id)))
  }

  /** Socket id is told of no beginning. */
  ghost predicate NothingBegins(r: State, r': State, id: ClientId) {
    Begun(StoryOf(r', id)) == Begun(StoryOf(r, id)) && (InTurn(StoryOf(r, id)) ==> InTurn(StoryOf(r', id)))
  }

  /** No session begins, no server comes, and no counter moves. */
  ghost predicate NoTurn(r: State, r': State) {
    && (forall id :: NothingBegins(r, r', id))
    && (forall u :: u in r'.servers ==>
          u in r.servers && r'.servers[u].counter == r.servers[u].counter
              && r'.servers[u].transport == r.servers[u].transport)
    && (forall id :: Listed(r', id) && r'.transports[id].kind != TypeServer ==>
          Listed(r, id) && r.transports[id].kind != TypeServer)
  }

  lemma NoTurnKeeps(r: State, r': State)
    requires Turns(r) && NoTurn(r, r')
    ensures Turns(r')
  {
    forall u | u in r'.servers ensures IsCounted(r', u) {
      assert IsCounted(r, u) && NothingBegins(r, r', r.servers[u].transport);
    }
    forall id ensures IsUntold(r', id) && InTurn(StoryOf(r', id)) {
      assert IsUntold(r, id) && NothingBegins(r, r', id);
    }
  }

  lemma NoTurnChains(r: State, r1: State, r2: State)
    requires NoTurn(r, r1) && NoTurn(r1, r2)
    ensures NoTurn(r, r2)
  {
    forall id ensures NothingBegins(r, r2, id) {
      assert NothingBegins(r, r1, id) && NothingBegins(r1, r2, id);
    }
  }

  /** Servers keep their counters, and sockets their roles. */
  ghost predicate SameRoles(r: State, r': State) {
    && (forall u :: u in r'.servers ==>
          u in r.servers && r'.servers[u].counter == r.servers[u].counter
              && r'.servers[u].transport == r.servers[u].transport)
    && (forall id :: Listed(r', id) ==> Listed(r, id) && r'.transports[id].kind == r.transports[id].kind)
  }

  predicate BeginsNothing(e: Entry) {
    !e.Opened? && (e.Sent? && Told(e.message).Some? ==> !Told(e.message).value.Begin?)
  }

  lemma QuietNoTurn(r: State, r': State)
    requires SameRoles(r, r') && r'.log == r.log
    ensures NoTurn(r, r')
  {
  }

  lemma EntryNoTurn(r: State, r': State, e: Entry)
    requires SameRoles(r, r') && r'.log == r.log + [e] && BeginsNothing(e)
    ensures NoTurn(r, r')
  {
    forall id ensures NothingBegins(r, r', id) {
      StoryByEntry(r.log, e, id);
      if e.Sent? && e.to == id && Told(e.message).Some? {
        TurnlessEvent(StoryOf(r, id), Told(e.message).value);
      } else {
        assert StoryOf(r, id) + [] == StoryOf(r, id);
      }
    }
  }

  lemma TurnlessEvent(story: seq<SessionEvent>, e: SessionEvent)
    requires !e.Begin?
    ensures Begun(story + [e]) == Begun(story) && (InTurn(story) ==> InTurn(story + [e]))
  {
    assert (story + [e])[..|story|] == story;
    if InTurn(story) {
      OneMoreTurn(story, e);
    }
  }

  // ---------------------------------------------------------------- registrations

  /** A server that registers has been told nothing yet, and starts to count. */
  lemma AddServerTurns(r: State, id: ClientId, u: Uuid, name: string)
    requires Turns(r) && Listed(r, id) && r.transports[id].kind == TypeNone && u !in r.servers
    ensures Turns(AddServer(r, id, u, name))
  {
    var r' := AddServer(r, id, u, name);
    assert IsUntold(r, id);
    forall v | v in r'.servers ensures IsCounted(r', v) {
      assert v in r.servers ==> IsCounted(r, v);
    }
    forall i ensures IsUntold(r', i) && InTurn(StoryOf(r', i)) {
      assert IsUntold(r, i) && StoryOf(r', i) == StoryOf(r, i);
    }
  }

  /** A client that registers takes its turn. */
  lemma AddClientTurns(r: State, id: ClientId, c: Uuid, name: string, u: Uuid)
    requires Turns(r) && Inv(r) && u in r.servers && Listed(r, id) && r.transports[id].kind == TypeNone
    requires HasRoom(r.servers[u].byAddress.Keys, r.servers[u].counter)
    ensures Turns(AddClient(r, id, c, name, u))
  {
    var s := r.servers[u];
    AddClientTells(r, id, c, name, u);
    TurnIsFree(r, u);
    var r' := AddClient(r, id, c, name, u);
    AddClientCounts(r, id, c, name, u);
    forall v | v in r'.servers ensures IsCounted(r', v) {
      OthersCounted(r, r', u, v, Begin(NextAddress(s.byAddress.Keys, s.counter), c));
    }
    forall k ensures IsUntold(r', k) && InTurn(StoryOf(r', k)) {
      OthersUntold(r, r', u, k, Begin(NextAddress(s.byAddress.Keys, s.counter), c));
    }
  }

  /** The next address of a server is free in turn, as its story tells it. */
  lemma TurnIsFree(r: State, u: Uuid)
    requires Turns(r) && Boards(r) && u in r.servers && HasRoom(r.servers[u].byAddress.Keys, r.servers[u].counter)
    ensures var s, story := r.servers[u], StoryOf(r, r.servers[u].transport);
            && Track(story).Some?
            && IsFirstFree(Track(story).value.Keys, Begun(story) + 1, NextAddress(s.byAddress.Keys, s.counter))
  {
    assert IsCounted(r, u) && Shows(Seen(r.log, r.servers[u].transport), r, u);
    NextIsFirstFree(r.servers[u].byAddress.Keys, Begun(StoryOf(r, r.servers[u].transport)));
  }

  lemma AddClientCounts(r: State, id: ClientId, c: Uuid, name: string, u: Uuid)
    requires u in r.servers && Listed(r, id) && r.transports[id].kind == TypeNone
    ensures var r' := AddClient(r, id, c, name, u);
            && r'.servers.Keys == r.servers.Keys
            && (forall v :: v in r.servers ==> r'.servers[v].transport == r.servers[v].transport)
            && (forall v :: v in r.servers && v != u ==> r'.servers[v].counter == r.servers[v].counter)
            && r'.servers[u].counter == Wrap(r.servers[u].counter as nat + 1)
            && (forall k :: Listed(r', k) && r'.transports[k].kind != TypeServer ==>
                  Listed(r, k) && r.transports[k].kind != TypeServer)
  {
  }

  /** Socket k is told of e if it is that of server u, and of nothing else. */
  ghost predicate ToldOne(r: State, r': State, u: Uuid, k: ClientId, e: SessionEvent)
    requires u in r.servers
  {
    StoryOf(r', k) == StoryOf(r, k) + if r.servers[u].transport == k then [e] else []
  }

  lemma OthersCounted(r: State, r': State, u: Uuid, v: Uuid, e: SessionEvent)
    requires Turns(r) && Tables(r) && u in r.servers && v in r.servers && v in r'.servers && e.Begin?
    requires ToldOne(r, r', u, r.servers[v].transport, e)
    requires r'.servers[v].transport == r.servers[v].transport
    requires r'.servers[v].counter == if v == u then Wrap(r.servers[u].counter as nat + 1) else r.servers[v].counter
    ensures IsCounted(r', v)
  {
    var story := StoryOf(r, r.servers[v].transport);
    assert IsCounted(r, v) && HoldsTransport(r, r.servers[v].transport, TypeServer, v);
    assert HoldsTransport(r, r.servers[u].transport, TypeServer, u);
    if v == u {
      assert (story + [e])[..|story|] == story;
      WrapAdds(Begun(story), 1);
    } else {
      assert story + [] == story;
    }
  }

  lemma OthersUntold(r: State, r': State, u: Uuid, k: ClientId, e: SessionEvent)
    requires Turns(r) && Tables(r) && u in r.servers && e.Begin? && ToldOne(r, r', u, k, e)
    requires var story := StoryOf(r, r.servers[u].transport);
             Track(story).Some? && IsFirstFree(Track(story).value.Keys, Begun(story) + 1, e.address)
    requires Listed(r', k) && r'.transports[k].kind != TypeServer ==> Listed(r, k) && r.transports[k].kind != TypeServer
    ensures IsUntold(r', k) && InTurn(StoryOf(r', k))
  {
    assert IsUntold(r, k) && InTurn(StoryOf(r, k));
    assert HoldsTransport(r, r.servers[u].transport, TypeServer, u);
    if r.servers[u].transport == k {
      OneMoreTurn(StoryOf(r, k), e);
    } else {
      assert StoryOf(r, k) + [] == StoryOf(r, k);
    }
  }

  lemma AddClientTells(r: State, id: ClientId, c: Uuid, name: string, u: Uuid)
    requires u in r.servers && id in r.transports
    ensures var s := r.servers[u];
            forall k :: ToldOne(r, AddClient(r, id, c, name, u), u, k,
                                Begin(NextAddress(s.byAddress.Keys, s.counter), c))
  {
    var r' := AddClient(r, id, c, name, u);
    var s := r.servers[u];
    var e := r'.log[|r.log|];
    forall k ensures ToldOne(r, r', u, k, Begin(NextAddress(s.byAddress.Keys, s.counter), c)) {
      StoryByEntry(r.log, e, k);
    }
  }

  lemma NextIsFirstFree(used: set<u16>, n: nat)
    requires HasRoom(used, Wrap(n))
    ensures IsFirstFree(used, n + 1, NextAddress(used, Wrap(n)))
  {
    NextAddressExactly(used, Wrap(n));
    var k: nat :| k <= CONNECTION_LIMIT && NextAddress(used, Wrap(n)) == Candidate(Wrap(n), k)
                  && forall j: nat :: j < k ==> Blocked(used, Candidate(Wrap(n), j));
    FirstFreeFrom(used, n, k, NextAddress(used, Wrap(n)));
  }

  lemma FirstFreeFrom(used: set<u16>, n: nat, k: nat, a: u16)
    requires a == Candidate(Wrap(n), k) && !Blocked(used, a)
    requires forall j: nat :: j < k ==> Blocked(used, Candidate(Wrap(n), j))
    ensures IsFirstFreeAt(used, n + 1, k, a)
  {
    var m := n + 1;
    CandidateIs(n, k);
    forall j: nat | j < k ensures Blocked(used, From(m, j)) {
      CandidateIs(n, j);
    }
  }

  lemma CandidateIs(n: nat, j: nat)
    ensures Candidate(Wrap(n), j) == From(n + 1, j)
  {
    WrapAdds(n, 1 + j);
  }

  lemma WrapAdds(n: nat, m: nat)
    ensures Wrap(Wrap(n) as nat + m) == Wrap(n + m)
  {
  }

  // ---------------------------------------------------------------- steps and runs

  lemma InvokeTurns(r: State, id: ClientId, p: Procedure)
    requires Turns(r) && Inv(r) && Roomy(JoinOf(r, id, p))
    ensures Turns(Invoke(r, id, p).0)
  {
    match p
    case RegisterServer(u, name) => RegisterServerTurns(r, id, u, name);
    case RegisterClient(c, name, u) => RegisterClientTurns(r, id, c, name, u);
    case DisconnectClient(a) => DisconnectCallTurns(r, id, a);
    case _ =>
  }

  lemma RefusalTurns(r: State, r': State)
    requires Turns(r) && SameRoles(r, r') && r'.log == r.log
    ensures Turns(r')
  {
    QuietNoTurn(r, r');
    NoTurnKeeps(r, r');
  }

  lemma RegisterClientTurns(r: State, id: ClientId, c: Uuid, name: string, u: Uuid)
    requires Turns(r) && Inv(r) && Roomy(JoinOf(r, id, RegisterClient(c, name, u)))
    ensures Turns(Invoke(r, id, RegisterClient(c, name, u)).0)
  {
    var p := RegisterClient(c, name, u);
    if Accepts(r, id, p) {
      assert JoinOf(r, id, p)[0] == r.servers[u];
      AddClientTurns(r, id, c, name, u);
    } else if Invoke(r, id, p).0 != r {
      RefusalTurns(r, KillAfterResponse(r, id));
    }
  }

  lemma RegisterServerTurns(r: State, id: ClientId, u: Uuid, name: string)
    requires Turns(r)
    ensures Turns(Invoke(r, id, RegisterServer(u, name)).0)
  {
    var r' := Invoke(r, id, RegisterServer(u, name)).0;
    if u != NULL_UUID && Listed(r, id) && r.transports[id].kind == TypeNone && u !in r.servers && u !in r.clients {
      AddServerTurns(r, id, u, name);
    } else {
      RefusalTurns(r, r');
    }
  }

  lemma DisconnectCallTurns(r: State, id: ClientId, a: u16)
    requires Turns(r)
    ensures Turns(CallDisconnectClient(r, id, a).0)
  {
    if Listed(r, id) && r.transports[id].kind == TypeServer && r.transports[id].uuid in r.servers {
      var s := r.servers[r.transports[id].uuid];
      if a in s.byAddress {
        KillTurns(r, ClientTransport(r, s.byAddress[a]));
      }
    } else if Listed(r, id) {
      RefusalTurns(r, KillAfterResponse(r, id));
    }
  }

  lemma KillTurns(r: State, id: ClientId)
    requires Turns(r)
    ensures Turns(Kill(r, id))
  {
    EntryNoTurn(r, Kill(r, id), Killed({id}));
    NoTurnKeeps(r, Kill(r, id));
  }

  lemma HandlePacketTurns(read: bytes -> Request, r: State, id: ClientId, packet: bytes)
    requires Turns(r) && Inv(r) && Roomy(PacketJoins(read, r, id, packet))
    ensures Turns(HandlePacket(read, r, id, packet))
  {
    match read(packet)
    case Unusable(n) =>
      var r1 := Send(r, id, ErrorResponse(n));
      EntryNoTurn(r, r1, Letter(r, id, ErrorResponse(n)));
      NoTurnKeeps(r, r1);
      KillTurns(r1, id);
    case Call(n, p) =>
      var (r1, reply) := Invoke(r, id, p);
      InvokeTurns(r, id, p);
      AnswerNoTurn(r1, id, Response(n, reply));
      NoTurnKeeps(r1, AfterResponse(Send(r1, id, Response(n, reply)), id));
  }

  lemma AnswerNoTurn(r: State, id: ClientId, c: Control)
    requires c.IsAnswer()
    ensures NoTurn(r, AfterResponse(Send(r, id, c), id))
  {
    var r1 := Send(r, id, c);
    EntryNoTurn(r, r1, Letter(r, id, c));
    if id in r.transports && r.transports[id].killRequested {
      EntryNoTurn(r1, Kill(r1, id), Killed({id}));
    } else {
      QuietNoTurn(r1, AfterResponse(r1, id));
    }
    NoTurnChains(r, r1, AfterResponse(r1, id));
  }

  lemma HandleFrameTurns(read: bytes -> Request, r: State, id: ClientId, raw: bytes)
    requires Turns(r) && Inv(r) && Roomy(FrameJoins(read, r, id, raw))
    ensures Turns(HandleFrame(read, r, id, raw))
  {
    var frame := SlipDataProcessor.Parsed(raw);
    if frame.socketAddress == JSON_ADDRESS {
      HandlePacketTurns(read, r, id, frame.data);
    } else {
      RouteFrameTurns(r, id, frame);
    }
  }

  lemma RouteFrameTurns(r: State, id: ClientId, frame: SlipDataProcessor.Frame)
    requires Turns(r)
    ensures Turns(RouteFrame(r, id, frame))
  {
    if id in r.transports && r.transports[id].uuid in r.servers {
      var s := r.servers[r.transports[id].uuid];
      if frame.socketAddress in s.byAddress {
        ForwardTurns(r, s.byAddress[frame.socketAddress], frame.data);
      }
    }
  }

  lemma ForwardTurns(r: State, c: Uuid, data: bytes)
    requires Turns(r)
    ensures Turns(ForwardPayload(r, c, data))
  {
    EntryNoTurn(r, ForwardPayload(r, c, data), Sent(ClientTransport(r, c), Forward(data)));
    NoTurnKeeps(r, ForwardPayload(r, c, data));
  }

  lemma DisconnectNoTurn(r: State, gone: ClientId)
    ensures NoTurn(r, Disconnect(r, gone))
  {
    if Listed(r, gone) {
      var t, r1 := r.transports[gone], Unlist(r, gone);
      EntryNoTurn(r, r1, Closed(gone));
      if t.kind == TypeServer && t.uuid in r.servers {
        var r2 := DropServer(r1, t.uuid);
        EntryNoTurn(r1, r2, r2.log[|r1.log|]);
        NoTurnChains(r, r1, r2);
      } else if t.kind == TypeClient && t.uuid in r.clients {
        DropClientNoTurn(r1, t.uuid);
        NoTurnChains(r, r1, DropClient(r1, t.uuid));
      }
    } else {
      QuietNoTurn(r, r);
    }
  }

  lemma DropClientNoTurn(r: State, c: Uuid)
    requires c in r.clients
    ensures NoTurn(r, DropClient(r, c))
  {
    var r' := DropClient(r, c);
    if r'.log == r.log {
      QuietNoTurn(r, r');
    } else {
      EntryNoTurn(r, r', r'.log[|r.log|]);
    }
  }

  lemma {:induction false} DisconnectAllNoTurn(r: State, gone: seq<ClientId>)
    ensures NoTurn(r, DisconnectAll(r, gone))
  {
    if gone == [] {
      QuietNoTurn(r, r);
    } else {
      var r1 := DisconnectAll(r, gone[..|gone| - 1]);
      DisconnectAllNoTurn(r, gone[..|gone| - 1]);
      DisconnectNoTurn(r1, gone[|gone| - 1]);
      NoTurnChains(r, r1, DisconnectAll(r, gone));
    }
  }

  lemma HandleItemTurns(read: bytes -> Request, r: State, id: ClientId, item: bytes, slip: bool, gone: seq<ClientId>)
    requires Turns(r) && Inv(r)
    requires Roomy(if slip then FrameJoins(read, r, id, item) else PacketJoins(read, r, id, item))
    ensures Turns(HandleItem(read, r, id, item, slip, gone))
  {
    var r1 := if slip then HandleFrame(read, r, id, item) else HandlePacket(read, r, id, item);
    if slip {
      HandleFrameTurns(read, r, id, item);
    } else {
      HandlePacketTurns(read, r, id, item);
    }
    DisconnectAllNoTurn(r1, gone);
    NoTurnKeeps(r1, DisconnectAll(r1, gone));
  }

  lemma {:induction false} HandleItemsTurns(read: bytes -> Request, r: State, id: ClientId, items: seq<bytes>,
                                            slip: bool,
                                            hangups: seq<seq<ClientId>>)
    requires Turns(r) && Inv(r) && Roomy(ItemsJoins(read, r, id, items, slip, hangups))
    ensures Turns(HandleItems(read, r, id, items, slip, hangups))
  {
    if items != [] {
      var n := |items| - 1;
      var r1 := HandleItems(read, r, id, items[..n], slip, hangups);
      RoomyParts(ItemsJoins(read, r, id, items[..n], slip, hangups),
                 if slip then FrameJoins(read, r1, id, items[n]) else PacketJoins(read, r1, id, items[n]));
      HandleItemsKeeps(read, r, id, items[..n], slip, hangups);
      HandleItemsTurns(read, r, id, items[..n], slip, hangups);
      HandleItemTurns(read, r1, id, items[n], slip, Hangups(hangups, n));
    }
  }

  lemma BufferTurns(r: State, id: ClientId, buffer: bytes)
    requires Turns(r) && Inv(r) && id in r.transports
    ensures Turns(WithBuffer(r, id, buffer)) && Inv(WithBuffer(r, id, buffer))
  {
    RefusalTurns(r, WithBuffer(r, id, buffer));
    RetouchKeeps(r, id, r.transports[id].(buffer := buffer));
  }

  lemma ReceiveTurns(read: bytes -> Request, r: State, id: ClientId, data: bytes, hangups: seq<seq<ClientId>>)
    requires Turns(r) && Inv(r) && Roomy(ChunkJoins(read, r, id, data, hangups))
    ensures Turns(Receive(read, r, id, data, hangups))
  {
    if Listed(r, id) {
      if r.transports[id].kind == TypeClient {
        TunnelTurns(r, r.transports[id].uuid, data);
      } else if r.transports[id].kind == TypeServer && r.transports[id].slip {
        var s := Framing.Assemble(r.transports[id].buffer, data);
        BufferTurns(r, id, s.buffer);
        HandleItemsTurns(read, WithBuffer(r, id, s.buffer), id, s.frames, true, hangups);
      } else {
        ReceiveJsonTurns(read, r, id, data, hangups);
      }
    }
  }

  lemma ReceiveJsonTurns(read: bytes -> Request, r: State, id: ClientId, data: bytes, hangups: seq<seq<ClientId>>)
    requires Turns(r) && Inv(r) && id in r.transports && Roomy(JsonJoins(read, r, id, data, hangups))
    ensures Turns(ReceiveJson(read, r, id, data, hangups))
  {
    var s := JsonStream.Ingest(r.transports[id].buffer, data);
    var r1 := WithBuffer(r, id, s.buffer);
    BufferTurns(r, id, s.buffer);
    if |s.buffer| > MAX_BUFFER {
      KillTurns(r1, id);
    } else if id in r.jsonClients {
      HandleItemsTurns(read, r1, id, s.Packets(), false, hangups);
    }
  }

  lemma TunnelTurns(r: State, c: Uuid, data: bytes)
    requires Turns(r)
    ensures Turns(ReceiveTunnel(r, c, data))
  {
    var r' := ReceiveTunnel(r, c, data);
    if r'.log != r.log {
      EntryNoTurn(r, r', r'.log[|r.log|]);
      NoTurnKeeps(r, r');
    }
  }

  /** A socket that opens has been told nothing. */
  lemma ConnectTurns(r: State, id: ClientId, peer: string)
    requires Turns(r) && Tables(r)
    ensures Turns(Connect(r, id, peer))
  {
    var r' := Connect(r, id, peer);
    if Listed(r, id) {
      KillTurns(r, id);
    } else {
      OutboxOneMore(r.log, Opened(id));
      forall k | k != id ensures StoryOf(r', k) == StoryOf(r, k) {
        StoryByEntry(r.log, Opened(id), k);
        assert StoryOf(r, k) + [] == StoryOf(r, k);
      }
      assert StoryOf(r', id) == [];
      forall u | u in r'.servers ensures IsCounted(r', u) {
        assert IsCounted(r, u) && HoldsTransport(r, r.servers[u].transport, TypeServer, u);
      }
      forall k ensures IsUntold(r', k) && InTurn(StoryOf(r', k)) {
        assert IsUntold(r, k) && InTurn(StoryOf(r, k));
      }
    }
  }

  lemma StepTurns(read: bytes -> Request, r: State, e: Event)
    requires Turns(r) && Inv(r) && Roomy(StepJoins(read, r, e))
    ensures Turns(Step(read, r, e))
  {
    var r' := Step(read, r, e);
    match e
    case Connected(id, peer) => ConnectTurns(r, id, peer);
    case Disconnected(id) =>
      DisconnectNoTurn(r, id);
      NoTurnKeeps(r, r');
    case Data(id, data, hangups) => ReceiveTurns(read, r, id, data, hangups);
    case Inactive(id) => KillTurns(r, id);
    case Tick =>
      EntryNoTurn(r, r', Published(r.troughputCounter));
      NoTurnKeeps(r, r');
  }

  lemma NobodyTurns(r: State)
    requires r.log == [] && r.servers == map[] && r.transports == map[]
    ensures Turns(r)
  {
  }

  lemma {:induction false} RunTurns(read: bytes -> Request, es: seq<Event>)
    requires Admissible(read, es)
    ensures Turns(Run(read, es))
  {
    if es == [] {
      NobodyTurns(INIT);
    } else {
      AdmissibleButLast(read, es);
      RunKeeps(read, es[..|es| - 1]);
      RunTurns(read, es[..|es| - 1]);
      StepTurns(read, Run(read, es[..|es| - 1]), es[|es| - 1]);
    }
  }

  /** Address allocation over whole runs: on every socket, the n-th session ever to begin
      begins on the first address that was free then, counting from n. */
  lemma AddressesAreGivenInTurn(read: bytes -> Request, es: seq<Event>, id: ClientId, i: nat)
    requires Admissible(read, es)
    requires i < |StoryOf(Run(read, es), id)| && StoryOf(Run(read, es), id)[i].Begin?
    ensures TakesTurn(StoryOf(Run(read, es), id), i)
  {
    RunTurns(read, es);
    assert InTurn(StoryOf(Run(read, es), id));
  }

  // ---------------------------------------------------------------- addresses that come back

  /** The session at j is the next to begin after that at i. */
  predicate BeginsNext(story: seq<SessionEvent>, i: nat, j: nat) {
    && i < j < |story| && story[i].Begin? && story[j].Begin?
    && forall m :: i < m < j ==> !story[m].Begin?
  }

  lemma {:induction false} BegunBetween(story: seq<SessionEvent>, i: nat, j: nat)
    requires i < j <= |story| && story[i].Begin? && forall m :: i < m < j ==> !story[m].Begin?
    ensures Begun(story[..j]) == Begun(story[..i]) + 1
    decreases j
  {
    assert story[..j][..j - 1] == story[..j - 1];
    if i < j - 1 {
      BegunBetween(story, i, j - 1);
    }
  }

  lemma FromNext(n: nat, k: nat)
    ensures From(n + 1, k) == From(n, k + 1)
  {
  }

  /** Whether an address is given to the very next client: exactly when it has been released
      by then, was not its own turn's number but found by skipping k others, and all these
      but the first are still taken or reserved. */
  lemma AddressComesBackExactly(story: seq<SessionEvent>, i: nat, j: nat, k: nat)
    requires InTurn(story) && BeginsNext(story, i, j) && Track(story[..i]).Some? && Track(story[..j]).Some?
    requires k <= CONNECTION_LIMIT
    requires IsFirstFreeAt(Track(story[..i]).value.Keys, Begun(story[..i]) + 1, k, story[i].address)
    ensures story[j].address == story[i].address <==>
              k > 0 && IsFirstFreeAt(Track(story[..j]).value.Keys, Begun(story[..i]) + 2, k - 1, story[i].address)
  {
    var n, a, used := Begun(story[..i]) + 1, story[i].address, Track(story[..j]).value.Keys;
    BegunBetween(story, i, j);
    assert TakesTurn(story, j);
    var m: nat :| m <= CONNECTION_LIMIT && IsFirstFreeAt(used, n + 1, m, story[j].address);
    FromNext(n, m);
    FromSame(n, m + 1, k);
    OnlyOneFirst(used, n + 1, m, story[j].address, if k > 0 then k - 1 else 0, a);
  }

  lemma FromSame(n: nat, j: nat, k: nat)
    ensures j < 0x1_0000 && k < 0x1_0000 && From(n, j) == From(n, k) ==> j == k
  {
  }

  lemma OnlyOneFirst(used: set<u16>, n: nat, k: nat, a: u16, m: nat, b: u16)
    ensures IsFirstFreeAt(used, n, k, a) && IsFirstFreeAt(used, n, m, b) ==> k == m && a == b
  {
    var x, y := Blocked(used, From(n, k)), Blocked(used, From(n, m));
  }

  /** In particular the own number of a turn is never given to the next client. */
  lemma OwnNumberDoesNotComeBack(story: seq<SessionEvent>, i: nat, j: nat)
    requires InTurn(story) && BeginsNext(story, i, j) && Track(story[..j]).Some?
    requires story[i].address == From(Begun(story[..i]) + 1, 0)
    ensures story[j].address != story[i].address
  {
    assert TakesTurn(story, i);
    var used := Track(story[..i]).value.Keys;
    var k: nat :| k <= CONNECTION_LIMIT && IsFirstFreeAt(used, Begun(story[..i]) + 1, k, story[i].address);
    FromSame(Begun(story[..i]) + 1, 0, k);
    AddressComesBackExactly(story, i, j, k);
  }

  /** It may come back where numbers are skipped: with nobody else there, the 65535th and the
      65536th client both get address 1. */
  lemma AddressOneComesBack(nobody: set<u16>)
    requires nobody == {}
    ensures IsFirstFreeAt(nobody, 0xFFFF, 2, 1) && IsFirstFreeAt(nobody, 0x1_0000, 1, 1)
  {
    SkipsTwo(nobody, 0xFFFF, NO_ADDRESS, JSON_ADDRESS, 1);
    SkipsOne(nobody, 0x1_0000, JSON_ADDRESS, 1);
  }

  predicate IsAt(n: nat, k: nat, a: u16) {
    n + k == a as int || n + k == a as int + 0x1_0000
  }

  lemma FromAt(n: nat, k: nat, a: u16)
    requires IsAt(n, k, a)
    ensures From(n, k) == a
  {
  }

  lemma SkipsOne(used: set<u16>, n: nat, a: u16, b: u16)
    requires IsAt(n, 0, a) && IsAt(n, 1, b) && Blocked(used, a) && !Blocked(used, b)
    ensures IsFirstFreeAt(used, n, 1, b)
  {
    FromAt(n, 0, a);
    FromAt(n, 1, b);
  }

  lemma SkipsTwo(used: set<u16>, n: nat, a: u16, b: u16, c: u16)
    requires IsAt(n, 0, a) && IsAt(n, 1, b) && IsAt(n, 2, c) && Blocked(used, a) && Blocked(used, b)
    requires !Blocked(used, c)
    ensures IsFirstFreeAt(used, n, 2, c)
  {
    FromAt(n, 0, a);
    FromAt(n, 1, b);
    FromAt(n, 2, c);
    forall j: nat | j < 2 ensures Blocked(used, From(n, j)) {
      assert j == 0 || j == 1;
    }
  }
}
