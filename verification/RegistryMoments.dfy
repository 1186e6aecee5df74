/** The moments of a run: between two events the proxy passes through further states, one
    after each packet, frame and disconnect. Whatever a server has been told so far, there
    was a moment at which its table was just that. */
module RegistryMoments {
  import opened Bytes
  import opened Sessions
  import opened Messages
  import opened AddressAllocator
  import opened Registry
  import opened RegistryInvariant
  import opened RegistryRuns
  import opened RegistryWrites
  import opened RegistrySessions
  import JsonStream
  import Framing
  import SlipDataProcessor

  // ---------------------------------------------------------------- moments

  predicate AmongHangups(r: State, gone: seq<ClientId>, x: State) {
    x == DisconnectAll(r, gone) || (gone != [] && AmongHangups(r, gone[..|gone| - 1], x))
  }

  predicate AmongItems(read: bytes -> Request, r: State, id: ClientId, items: seq<bytes>, slip: bool,
                       hangups: seq<seq<ClientId>>, x: State)
  {
    if items == [] then x == r else
      var n := |items| - 1;
      var r1 := HandleItems(read, r, id, items[..n], slip, hangups);
      AmongItems(read, r, id, items[..n], slip, hangups, x)
      || AmongHangups(Handled(read, r1, id, items[n], slip), Hangups(hangups, n), x)
  }

  function Handled(read: bytes -> Request, r: State, id: ClientId, item: bytes, slip: bool): State {
    if slip then HandleFrame(read, r, id, item) else HandlePacket(read, r, id, item)
  }

  predicate AmongChunk(read: bytes -> Request, r: State, id: ClientId, data: bytes, hangups: seq<seq<ClientId>>,
                       x: State)
    requires id in r.transports
  {
    if r.transports[id].kind == TypeServer && r.transports[id].slip then
      var s := Framing.Assemble(r.transports[id].buffer, data);
      AmongItems(read, WithBuffer(r, id, s.buffer), id, s.frames, true, hangups, x)
    else
      var s := JsonStream.Ingest(r.transports[id].buffer, data);
      AmongItems(read, WithBuffer(r, id, s.buffer), id, s.Packets(), false, hangups, x)
  }

  /** The states a step goes through, with the one it leads to. */
  predicate DuringStep(read: bytes -> Request, r: State, e: Event, x: State) {
    x == Step(read, r, e)
    || (HandlesItems(r, e) && AmongChunk(read, r, e.id, e.data, e.hangups, x))
  }

  /** A chunk whose packets or frames are handled. */
  predicate HandlesItems(r: State, e: Event) {
    && e.Data? && Listed(r, e.id) && r.transports[e.id].kind != TypeClient
    && ((r.transports[e.id].kind == TypeServer && r.transports[e.id].slip)
        || (e.id in r.jsonClients && |JsonStream.Ingest(r.transports[e.id].buffer, e.data).buffer| <= MAX_BUFFER))
  }

  predicate IsMoment(read: bytes -> Request, es: seq<Event>, x: State) {
    if es == [] then x == INIT else
      IsMoment(read, es[..|es| - 1], x) || DuringStep(read, Run(read, es[..|es| - 1]), es[|es| - 1], x)
  }

  // ---------------------------------------------------------------- small steps

  ghost predicate IsServed(r: State, k: ClientId) {
    exists u :: u in r.servers && r.servers[u].transport == k
  }

  /** From r to r' the socket is told more, or nothing, and stays a server's if it was. */
  predicate Carries(r: State, r': State, k: ClientId) {
    StoryOf(r, k) <= StoryOf(r', k) && StaysServer(r, r', k)
  }

  predicate StaysServer(r: State, r': State, k: ClientId) {
    k in r.transports && r.transports[k].kind == TypeServer ==>
      k in r'.transports && r'.transports[k].kind == TypeServer && r'.transports[k].uuid == r.transports[k].uuid
  }

  /** A step that tells a socket at most one thing, and only while it has a server. */
  ghost predicate TellsOne(r: State, r': State, k: ClientId) {
    && Carries(r, r', k) && |StoryOf(r', k)| <= |StoryOf(r, k)| + 1
    && (|StoryOf(r', k)| > |StoryOf(r, k)| ==> IsServed(r, k))
  }

  lemma TellsNothing(r: State, r': State, k: ClientId)
    requires StaysServer(r, r', k) && r'.log == r.log
    ensures TellsOne(r, r', k)
  {
  }

  lemma TellsByEntry(r: State, r': State, e: Entry, k: ClientId)
    requires StaysServer(r, r', k) && r'.log == r.log + [e] && e != Opened(k)
    requires e.Sent? && e.to == k && Told(e.message).Some? ==> IsServed(r, k)
    ensures TellsOne(r, r', k)
  {
    StoryByEntry(r.log, e, k);
  }

  /** A step that tells a socket nothing. */
  predicate IsSilent(r: State, r': State, k: ClientId) {
    StoryOf(r', k) == StoryOf(r, k) && StaysServer(r, r', k)
  }

  lemma SilentByEntry(r: State, r': State, e: Entry, k: ClientId)
    requires StaysServer(r, r', k) && r'.log == r.log + [e] && e != Opened(k)
    requires e.Sent? && e.to == k ==> Told(e.message).None?
    ensures IsSilent(r, r', k)
  {
    StoryByEntry(r.log, e, k);
  }

  lemma OneThenSilent(r: State, r1: State, r2: State, k: ClientId)
    requires TellsOne(r, r1, k) && IsSilent(r1, r2, k)
    ensures TellsOne(r, r2, k)
  {
  }

  lemma CarriesChains(r: State, r1: State, r2: State, k: ClientId)
    requires Carries(r, r1, k) && Carries(r1, r2, k)
    ensures Carries(r, r2, k)
  {
  }

  lemma InvokeTells(r: State, id: ClientId, p: Procedure, k: ClientId)
    ensures TellsOne(r, Invoke(r, id, p).0, k)
  {
    var r' := Invoke(r, id, p).0;
    if r'.log == r.log {
      TellsNothing(r, r', k);
    } else {
      var e := r'.log[|r.log|];
      assert r'.log == r.log + [e];
      if p.RegisterClient? {
        assert p.serverUuid in r.servers && e.to == r.servers[p.serverUuid].transport;
      }
      TellsByEntry(r, r', e, k);
    }
  }

  lemma AnswerIsSilent(r: State, id: ClientId, c: Control, k: ClientId)
    requires c.IsAnswer()
    ensures IsSilent(r, Send(r, id, c), k)
  {
    SilentByEntry(r, Send(r, id, c), Letter(r, id, c), k);
  }

  lemma AfterResponseIsSilent(r: State, id: ClientId, k: ClientId)
    ensures IsSilent(r, AfterResponse(r, id), k)
  {
    if id in r.transports && r.transports[id].killRequested {
      SilentByEntry(r, Kill(r, id), Killed({id}), k);
    }
  }

  lemma HandlePacketTells(read: bytes -> Request, r: State, id: ClientId, packet: bytes, k: ClientId)
    ensures TellsOne(r, HandlePacket(read, r, id, packet), k)
  {
    match read(packet)
    case Unusable(n) =>
      var r1 := Send(r, id, ErrorResponse(n));
      AnswerIsSilent(r, id, ErrorResponse(n), k);
      SilentByEntry(r1, Kill(r1, id), Killed({id}), k);
    case Call(n, p) =>
      var (r1, reply) := Invoke(r, id, p);
      var r2 := Send(r1, id, Response(n, reply));
      InvokeTells(r, id, p, k);
      AnswerIsSilent(r1, id, Response(n, reply), k);
      AfterResponseIsSilent(r2, id, k);
      OneThenSilent(r, r1, r2, k);
      OneThenSilent(r, r2, AfterResponse(r2, id), k);
  }

  lemma HandledTells(read: bytes -> Request, r: State, id: ClientId, item: bytes, slip: bool, k: ClientId)
    ensures TellsOne(r, Handled(read, r, id, item, slip), k)
  {
    var r' := Handled(read, r, id, item, slip);
    var frame := SlipDataProcessor.Parsed(item);
    HandlePacketTells(read, r, id, if slip then frame.data else item, k);
    if slip && frame.socketAddress != JSON_ADDRESS {
      if r'.log == r.log {
        TellsNothing(r, r', k);
      } else {
        TellsByEntry(r, r', r'.log[|r.log|], k);
      }
    }
  }

  lemma UnlistIsSilent(r: State, gone: ClientId, k: ClientId)
    requires Listed(r, gone)
    ensures IsSilent(r, Unlist(r, gone), k)
  {
    SilentByEntry(r, Unlist(r, gone), Closed(gone), k);
  }

  lemma DropServerTells(r: State, u: Uuid, k: ClientId)
    requires u in r.servers
    ensures TellsOne(r, DropServer(r, u), k)
  {
    TellsByEntry(r, DropServer(r, u), DropServer(r, u).log[|r.log|], k);
  }

  lemma DropClientTells(r: State, c: Uuid, k: ClientId)
    requires c in r.clients
    ensures TellsOne(r, DropClient(r, c), k)
  {
    var r' := DropClient(r, c);
    if r'.log == r.log {
      TellsNothing(r, r', k);
    } else {
      TellsByEntry(r, r', r'.log[|r.log|], k);
    }
  }

  lemma DisconnectTells(r: State, gone: ClientId, k: ClientId)
    ensures TellsOne(r, Disconnect(r, gone), k)
  {
    if Listed(r, gone) {
      var t, r1 := r.transports[gone], Unlist(r, gone);
      UnlistIsSilent(r, gone, k);
      if t.kind == TypeServer && t.uuid in r.servers {
        DropServerTells(r1, t.uuid, k);
        SilentThenOne(r, r1, DropServer(r1, t.uuid), k);
      } else if t.kind == TypeClient && t.uuid in r.clients {
        DropClientTells(r1, t.uuid, k);
        SilentThenOne(r, r1, DropClient(r1, t.uuid), k);
      }
    } else {
      TellsNothing(r, r, k);
    }
  }

  lemma SilentThenOne(r: State, r1: State, r2: State, k: ClientId)
    requires IsSilent(r, r1, k) && TellsOne(r1, r2, k) && r1.servers == r.servers
    ensures TellsOne(r, r2, k)
  {
  }

  // ---------------------------------------------------------------- chunks

  lemma {:induction false} HangupsCarry(r: State, gone: seq<ClientId>, k: ClientId)
    ensures Carries(r, DisconnectAll(r, gone), k)
  {
    if gone != [] {
      var r1 := DisconnectAll(r, gone[..|gone| - 1]);
      HangupsCarry(r, gone[..|gone| - 1], k);
      DisconnectTells(r1, gone[|gone| - 1], k);
      CarriesChains(r, r1, DisconnectAll(r, gone), k);
    }
  }

  lemma HandleItemCarries(read: bytes -> Request, r: State, id: ClientId, item: bytes, slip: bool,
                          gone: seq<ClientId>, k: ClientId)
    ensures var r1 := Handled(read, r, id, item, slip);
            TellsOne(r, r1, k) && Carries(r1, DisconnectAll(r1, gone), k) && Carries(r, DisconnectAll(r1, gone), k)
  {
    var r1 := Handled(read, r, id, item, slip);
    HandledTells(read, r, id, item, slip, k);
    HangupsCarry(r1, gone, k);
    CarriesChains(r, r1, DisconnectAll(r1, gone), k);
  }

  lemma {:induction false} ItemsCarry(read: bytes -> Request, r: State, id: ClientId, items: seq<bytes>, slip: bool,
                                      hangups: seq<seq<ClientId>>, k: ClientId)
    ensures Carries(r, HandleItems(read, r, id, items, slip, hangups), k)
  {
    if items != [] {
      var n := |items| - 1;
      var r1 := HandleItems(read, r, id, items[..n], slip, hangups);
      ItemsCarry(read, r, id, items[..n], slip, hangups, k);
      HandleItemCarries(read, r1, id, items[n], slip, Hangups(hangups, n), k);
      CarriesChains(r, r1, HandleItems(read, r, id, items, slip, hangups), k);
    }
  }

  /** A moment in which the socket has been told exactly s things, on the way to r', and
      its server is there. */
  ghost predicate IsThen(x: State, r': State, k: ClientId, s: nat) {
    Inv(x) && IsServed(x, k) && |StoryOf(x, k)| == s && Carries(x, r', k)
  }

  lemma ThenCarries(x: State, r1: State, r2: State, k: ClientId, s: nat)
    requires IsThen(x, r1, k, s) && Carries(r1, r2, k)
    ensures IsThen(x, r2, k, s)
  {
    CarriesChains(x, r1, r2, k);
  }

  lemma {:induction false} HangupsMoment(r: State, gone: seq<ClientId>, k: ClientId, s: nat) returns (x: State)
    requires Inv(r) && |StoryOf(r, k)| <= s < |StoryOf(DisconnectAll(r, gone), k)|
    ensures AmongHangups(r, gone, x) && IsThen(x, DisconnectAll(r, gone), k, s)
  {
    var n := |gone| - 1;
    var r1 := DisconnectAll(r, gone[..n]);
    DisconnectAllKeeps(r, gone[..n]);
    DisconnectTells(r1, gone[n], k);
    if s < |StoryOf(r1, k)| {
      x := HangupsMoment(r, gone[..n], k, s);
      ThenCarries(x, r1, DisconnectAll(r, gone), k, s);
    } else {
      x := r1;
      ThereItIs(r, gone[..n]);
    }
  }

  lemma ThereItIs(r: State, gone: seq<ClientId>)
    ensures AmongHangups(r, gone, DisconnectAll(r, gone))
  {
  }

  lemma {:induction false} ItemsMoment(read: bytes -> Request, r: State, id: ClientId, items: seq<bytes>, slip: bool,
                                       hangups: seq<seq<ClientId>>, k: ClientId, s: nat) returns (x: State)
    requires Inv(r) && Roomy(ItemsJoins(read, r, id, items, slip, hangups))
    requires |StoryOf(r, k)| <= s < |StoryOf(HandleItems(read, r, id, items, slip, hangups), k)|
    ensures AmongItems(read, r, id, items, slip, hangups, x)
    ensures IsThen(x, HandleItems(read, r, id, items, slip, hangups), k, s)
  {
    var n := |items| - 1;
    var r1 := HandleItems(read, r, id, items[..n], slip, hangups);
    var r' := HandleItems(read, r, id, items, slip, hangups);
    RoomyParts(ItemsJoins(read, r, id, items[..n], slip, hangups), ItemJoins(read, r1, id, items[n], slip));
    HandleItemsKeeps(read, r, id, items[..n], slip, hangups);
    HandleItemCarries(read, r1, id, items[n], slip, Hangups(hangups, n), k);
    if s < |StoryOf(r1, k)| {
      x := ItemsMoment(read, r, id, items[..n], slip, hangups, k, s);
      ThenCarries(x, r1, r', k, s);
    } else {
      x := ItemMoment(read, r1, id, items[n], slip, Hangups(hangups, n), k, s);
      if x == r1 {
        LastOfItems(read, r, id, items[..n], slip, hangups);
      }
    }
  }

  function ItemJoins(read: bytes -> Request, r: State, id: ClientId, item: bytes, slip: bool): seq<ServerConnection> {
    if slip then FrameJoins(read, r, id, item) else PacketJoins(read, r, id, item)
  }

  lemma LastOfItems(read: bytes -> Request, r: State, id: ClientId, items: seq<bytes>, slip: bool,
                    hangups: seq<seq<ClientId>>)
    ensures AmongItems(read, r, id, items, slip, hangups, HandleItems(read, r, id, items, slip, hangups))
  {
  }

  lemma ItemMoment(read: bytes -> Request, r: State, id: ClientId, item: bytes, slip: bool, gone: seq<ClientId>,
                   k: ClientId, s: nat) returns (x: State)
    requires Inv(r) && Roomy(ItemJoins(read, r, id, item, slip))
    requires |StoryOf(r, k)| <= s < |StoryOf(DisconnectAll(Handled(read, r, id, item, slip), gone), k)|
    ensures x == r || AmongHangups(Handled(read, r, id, item, slip), gone, x)
    ensures IsThen(x, DisconnectAll(Handled(read, r, id, item, slip), gone), k, s)
  {
    var r1 := Handled(read, r, id, item, slip);
    HandleItemCarries(read, r, id, item, slip, gone, k);
    HandleItemKeeps(read, r, id, item, slip, []);
    if s < |StoryOf(r1, k)| {
      x := r;
    } else {
      assert r1 == DisconnectAll(r1, []);
      x := HangupsMoment(r1, gone, k, s);
    }
  }

  // ---------------------------------------------------------------- steps and runs

  lemma BufferIsSilent(r: State, id: ClientId, buffer: bytes, k: ClientId)
    requires id in r.transports
    ensures IsSilent(r, WithBuffer(r, id, buffer), k)
  {
  }

  lemma ChunkMoment(read: bytes -> Request, r: State, e: Event, k: ClientId, s: nat) returns (x: State)
    requires Inv(r) && HandlesItems(r, e) && Roomy(StepJoins(read, r, e))
    requires |StoryOf(r, k)| <= s < |StoryOf(Step(read, r, e), k)|
    ensures AmongChunk(read, r, e.id, e.data, e.hangups, x) && IsThen(x, Step(read, r, e), k, s)
  {
    var id := e.id;
    if r.transports[id].kind == TypeServer && r.transports[id].slip {
      var s1 := Framing.Assemble(r.transports[id].buffer, e.data);
      RetouchKeeps(r, id, r.transports[id].(buffer := s1.buffer));
      BufferIsSilent(r, id, s1.buffer, k);
      x := ItemsMoment(read, WithBuffer(r, id, s1.buffer), id, s1.frames, true, e.hangups, k, s);
    } else {
      var s1 := JsonStream.Ingest(r.transports[id].buffer, e.data);
      RetouchKeeps(r, id, r.transports[id].(buffer := s1.buffer));
      BufferIsSilent(r, id, s1.buffer, k);
      x := ItemsMoment(read, WithBuffer(r, id, s1.buffer), id, s1.Packets(), false, e.hangups, k, s);
    }
  }

  /** Every step but a chunk that is cut into items is a small one. */
  lemma SmallStep(read: bytes -> Request, r: State, e: Event, k: ClientId)
    requires !HandlesItems(r, e) && !(IsOpening(r, e) && e.id == k)
    ensures TellsOne(r, Step(read, r, e), k)
  {
    match e
    case Connected(id, peer) =>
      TellsByEntry(r, Connect(r, id, peer), if Listed(r, id) then Killed({id}) else Opened(id), k);
    case Disconnected(id) => DisconnectTells(r, id, k);
    case Data(id, data, hangups) => SmallChunk(read, r, e, k);
    case Inactive(id) => TellsByEntry(r, Kill(r, id), Killed({id}), k);
    case Tick => TellsByEntry(r, Publish(r), Published(r.troughputCounter), k);
  }

  lemma SmallChunk(read: bytes -> Request, r: State, e: Event, k: ClientId)
    requires e.Data? && !HandlesItems(r, e)
    ensures TellsOne(r, Step(read, r, e), k)
  {
    if Listed(r, e.id) && r.transports[e.id].kind == TypeClient {
      TunnelTells(r, r.transports[e.id].uuid, e.data, k);
    } else {
      OverflowTells(read, r, e, k);
    }
  }

  lemma TunnelTells(r: State, c: Uuid, data: bytes, k: ClientId)
    ensures TellsOne(r, ReceiveTunnel(r, c, data), k)
  {
    var r' := ReceiveTunnel(r, c, data);
    if r'.log == r.log {
      TellsNothing(r, r', k);
    } else {
      TellsByEntry(r, r', r'.log[|r.log|], k);
    }
  }

  /** A chunk for nobody, or one that fills the buffer beyond its bound. */
  lemma OverflowTells(read: bytes -> Request, r: State, e: Event, k: ClientId)
    requires e.Data? && !HandlesItems(r, e) && !(Listed(r, e.id) && r.transports[e.id].kind == TypeClient)
    ensures TellsOne(r, Step(read, r, e), k)
  {
    if Listed(r, e.id) && e.id in r.jsonClients {
      TellsByEntry(r, Step(read, r, e), Killed({e.id}), k);
    } else {
      TellsNothing(r, r, k);
    }
  }

  lemma SlipCarries(read: bytes -> Request, r: State, id: ClientId, data: bytes, hangups: seq<seq<ClientId>>,
                    k: ClientId)
    requires id in r.transports
    ensures Carries(r, ReceiveSlip(read, r, id, data, hangups), k)
  {
    var s := Framing.Assemble(r.transports[id].buffer, data);
    BufferIsSilent(r, id, s.buffer, k);
    ItemsCarry(read, WithBuffer(r, id, s.buffer), id, s.frames, true, hangups, k);
    CarriesChains(r, WithBuffer(r, id, s.buffer), ReceiveSlip(read, r, id, data, hangups), k);
  }

  lemma JsonCarries(read: bytes -> Request, r: State, id: ClientId, data: bytes, hangups: seq<seq<ClientId>>,
                    k: ClientId)
    requires id in r.jsonClients && id in r.transports
    requires |JsonStream.Ingest(r.transports[id].buffer, data).buffer| <= MAX_BUFFER
    ensures Carries(r, ReceiveJson(read, r, id, data, hangups), k)
  {
    var s := JsonStream.Ingest(r.transports[id].buffer, data);
    BufferIsSilent(r, id, s.buffer, k);
    ItemsCarry(read, WithBuffer(r, id, s.buffer), id, s.Packets(), false, hangups, k);
    CarriesChains(r, WithBuffer(r, id, s.buffer), ReceiveJson(read, r, id, data, hangups), k);
  }

  lemma StepCarries(read: bytes -> Request, r: State, e: Event, k: ClientId)
    requires !(IsOpening(r, e) && e.id == k)
    ensures Carries(r, Step(read, r, e), k)
  {
    if HandlesItems(r, e) {
      if r.transports[e.id].kind == TypeServer && r.transports[e.id].slip {
        SlipCarries(read, r, e.id, e.data, e.hangups, k);
      } else {
        JsonCarries(read, r, e.id, e.data, e.hangups, k);
      }
    } else {
      SmallStep(read, r, e, k);
    }
  }

  lemma StepMoment(read: bytes -> Request, r: State, e: Event, k: ClientId, s: nat) returns (x: State)
    requires Inv(r) && Roomy(StepJoins(read, r, e)) && !(IsOpening(r, e) && e.id == k)
    requires |StoryOf(r, k)| <= s < |StoryOf(Step(read, r, e), k)|
    ensures (x == r || DuringStep(read, r, e, x)) && IsThen(x, Step(read, r, e), k, s)
  {
    if HandlesItems(r, e) {
      x := ChunkMoment(read, r, e, k, s);
    } else {
      SmallStep(read, r, e, k);
      x := r;
    }
  }

  lemma RunIsMoment(read: bytes -> Request, es: seq<Event>)
    ensures IsMoment(read, es, Run(read, es))
  {
  }

  /** For everything a socket has been told there was a moment just before the next thing. */
  lemma FindMoment(read: bytes -> Request, es: seq<Event>, k: ClientId, s: nat) returns (x: State)
    requires Admissible(read, es) && s <= |StoryOf(Run(read, es), k)|
    requires s == |StoryOf(Run(read, es), k)| ==> IsServed(Run(read, es), k)
    ensures IsMoment(read, es, x) && IsThen(x, Run(read, es), k, s)
  {
    RunKeeps(read, es);
    if s == |StoryOf(Run(read, es), k)| {
      x := Run(read, es);
      RunIsMoment(read, es);
    } else {
      x := EarlierMoment(read, es, k, s);
    }
  }

  lemma NothingYet(k: ClientId)
    ensures StoryOf(INIT, k) == []
  {
  }

  lemma {:induction false} EarlierMoment(read: bytes -> Request, es: seq<Event>, k: ClientId, s: nat) returns (x: State)
    requires Admissible(read, es) && s < |StoryOf(Run(read, es), k)|
    ensures IsMoment(read, es, x) && IsThen(x, Run(read, es), k, s)
  {
    NothingYet(k);
    if es != [] {
      var init, e := es[..|es| - 1], es[|es| - 1];
      var r := Run(read, init);
      AdmissibleButLast(read, es);
      RunKeeps(read, init);
      if IsOpening(r, e) && e.id == k {
        OpeningForgets(read, r, e);
      } else {
        StepCarries(read, r, e, k);
        if s < |StoryOf(r, k)| {
          x := EarlierMoment(read, init, k, s);
          ThenCarries(x, r, Step(read, r, e), k, s);
        } else {
          x := StepMoment(read, r, e, k, s);
          RunIsMoment(read, init);
        }
      }
    }
  }

  /** What a server had been told at some point is what its table was at some moment. */
  lemma TableAtThatMoment(read: bytes -> Request, es: seq<Event>, u: Uuid, s: nat) returns (x: State)
    requires Admissible(read, es) && u in Run(read, es).servers
    requires s <= |StoryOf(Run(read, es), Run(read, es).servers[u].transport)|
    ensures IsMoment(read, es, x) && Inv(x) && u in x.servers
    ensures var k := Run(read, es).servers[u].transport;
            && x.servers[u].transport == k && StoryOf(x, k) == StoryOf(Run(read, es), k)[..s]
            && Shows(Track(StoryOf(Run(read, es), k)[..s]), x, u)
  {
    var k := Run(read, es).servers[u].transport;
    RunKeeps(read, es);
    x := FindMoment(read, es, k, s);
    TheSameServer(x, Run(read, es), k, u, s);
  }

  lemma TheSameServer(x: State, r: State, k: ClientId, u: Uuid, s: nat)
    requires IsThen(x, r, k, s) && Tables(r) && u in r.servers && r.servers[u].transport == k
    ensures u in x.servers && x.servers[u].transport == k
    ensures StoryOf(x, k) == StoryOf(r, k)[..s] && Shows(Track(StoryOf(x, k)), x, u)
  {
    var v :| v in x.servers && x.servers[v].transport == k;
    assert HoldsTransport(x, k, TypeServer, v) && HoldsTransport(r, k, TypeServer, u);
    assert Shows(Seen(x.log, k), x, v);
  }
}
