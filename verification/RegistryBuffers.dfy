/** How much the proxy holds for a socket that speaks JSON. */
module RegistryBuffers {
  import opened Bytes
  import opened Messages
  import opened AddressAllocator
  import opened Registry
  import opened RegistryInvariant
  import JsonStream
  import Framing
  import SlipDataProcessor

  predicate Bounded(r: State, id: ClientId) {
    Listed(r, id) && !r.transports[id].slip ==> |r.transports[id].buffer| <= MAX_BUFFER || IsKilled(r.log, id)
  }

  /** Every socket without SLIP holds at most 10240 bytes, unless it has been killed. */
  ghost predicate AllBounded(r: State) {
    forall id :: Bounded(r, id)
  }

  /** Nobody is newly listed and no buffer changes, nobody leaves SLIP, and at most one entry
      is logged, which opens no socket. */
  ghost predicate Harmless(r: State, r': State) {
    && (forall id :: Listed(r', id) ==>
          Listed(r, id) && r'.transports[id].buffer == r.transports[id].buffer
              && (r.transports[id].slip ==> r'.transports[id].slip))
    && (r'.log == r.log
        || (|r'.log| == |r.log| + 1 && r'.log[..|r.log|] == r.log && !r'.log[|r.log|].Opened?))
  }

  lemma HarmlessKeeps(r: State, r': State)
    requires AllBounded(r) && Harmless(r, r')
    ensures AllBounded(r')
  {
    if r'.log != r.log {
      assert r'.log == r.log + [r'.log[|r.log|]];
      KilledOneMore(r.log, r'.log[|r.log|]);
    }
    forall id ensures Bounded(r', id) {
      assert Bounded(r, id);
    }
  }

  lemma RegisterServerHarmless(r: State, id: ClientId, u: Uuid, name: string)
    ensures Harmless(r, CallRegisterServer(r, id, u, name).0)
  {
  }

  lemma RegisterClientHarmless(r: State, id: ClientId, c: Uuid, name: string, u: Uuid)
    ensures Harmless(r, CallRegisterClient(r, id, c, name, u).0)
  {
  }

  lemma DisconnectClientHarmless(r: State, id: ClientId, a: u16)
    ensures Harmless(r, CallDisconnectClient(r, id, a).0)
  {
  }

  lemma InvokeHarmless(r: State, id: ClientId, p: Procedure)
    ensures Harmless(r, Invoke(r, id, p).0)
  {
    match p
    case RegisterServer(u, name) => RegisterServerHarmless(r, id, u, name);
    case RegisterClient(c, name, u) => RegisterClientHarmless(r, id, c, name, u);
    case DisconnectClient(a) => DisconnectClientHarmless(r, id, a);
    case _ =>
  }

  lemma AfterResponseHarmless(r: State, id: ClientId)
    ensures Harmless(r, AfterResponse(r, id))
  {
  }

  lemma HandlePacketBounded(read: bytes -> Request, r: State, id: ClientId, packet: bytes)
    requires AllBounded(r)
    ensures AllBounded(HandlePacket(read, r, id, packet))
  {
    match read(packet)
    case Unusable(n) =>
      HarmlessKeeps(r, Send(r, id, ErrorResponse(n)));
      HarmlessKeeps(Send(r, id, ErrorResponse(n)), HandlePacket(read, r, id, packet));
    case Call(n, p) =>
      var (r1, reply) := Invoke(r, id, p);
      InvokeHarmless(r, id, p);
      HarmlessKeeps(r, r1);
      var r2 := Send(r1, id, Response(n, reply));
      HarmlessKeeps(r1, r2);
      AfterResponseHarmless(r2, id);
      HarmlessKeeps(r2, AfterResponse(r2, id));
  }

  lemma HandleFrameBounded(read: bytes -> Request, r: State, id: ClientId, raw: bytes)
    requires AllBounded(r)
    ensures AllBounded(HandleFrame(read, r, id, raw))
  {
    var frame := SlipDataProcessor.Parsed(raw);
    if frame.socketAddress == JSON_ADDRESS {
      HandlePacketBounded(read, r, id, frame.data);
    } else {
      HarmlessKeeps(r, HandleFrame(read, r, id, raw));
    }
  }

  lemma DisconnectBounded(r: State, id: ClientId)
    requires AllBounded(r)
    ensures AllBounded(Disconnect(r, id))
  {
    if Listed(r, id) {
      var r1 := Unlist(r, id);
      HarmlessKeeps(r, r1);
      HarmlessKeeps(r1, Disconnect(r, id));
    }
  }

  lemma {:induction false} DisconnectAllBounded(r: State, ids: seq<ClientId>)
    requires AllBounded(r)
    ensures AllBounded(DisconnectAll(r, ids))
  {
    if ids != [] {
      DisconnectAllBounded(r, ids[..|ids| - 1]);
      DisconnectBounded(DisconnectAll(r, ids[..|ids| - 1]), ids[|ids| - 1]);
    }
  }

  lemma {:induction false} HandleItemsBounded(read: bytes -> Request, r: State, id: ClientId, items: seq<bytes>,
                                              slip: bool, hangups: seq<seq<ClientId>>)
    requires AllBounded(r)
    ensures AllBounded(HandleItems(read, r, id, items, slip, hangups))
  {
    if items != [] {
      var n := |items| - 1;
      HandleItemsBounded(read, r, id, items[..n], slip, hangups);
      var r1 := HandleItems(read, r, id, items[..n], slip, hangups);
      HandleFrameBounded(read, r1, id, items[n]);
      HandlePacketBounded(read, r1, id, items[n]);
      var r2 := if slip then HandleFrame(read, r1, id, items[n]) else HandlePacket(read, r1, id, items[n]);
      DisconnectAllBounded(r2, Hangups(hangups, n));
    }
  }

  lemma ReceiveJsonBounded(read: bytes -> Request, r: State, id: ClientId, data: bytes, hangups: seq<seq<ClientId>>)
    requires AllBounded(r) && id in r.transports
    ensures AllBounded(ReceiveJson(read, r, id, data, hangups))
  {
    var s := JsonStream.Ingest(r.transports[id].buffer, data);
    var r1 := WithBuffer(r, id, s.buffer);
    if id in r.jsonClients {
      if |s.buffer| > MAX_BUFFER {
        KilledOneMore(r.log, Killed({id}));
        forall i ensures Bounded(Kill(r1, id), i) {
          assert Bounded(r, i);
        }
      } else {
        forall i ensures Bounded(r1, i) {
          assert Bounded(r, i);
        }
        HandleItemsBounded(read, r1, id, s.Packets(), false, hangups);
      }
    }
  }

  lemma ReceiveSlipBounded(read: bytes -> Request, r: State, id: ClientId, data: bytes, hangups: seq<seq<ClientId>>)
    requires AllBounded(r) && id in r.transports && r.transports[id].slip
    ensures AllBounded(ReceiveSlip(read, r, id, data, hangups))
  {
    var s := Framing.Assemble(r.transports[id].buffer, data);
    var r1 := WithBuffer(r, id, s.buffer);
    forall i ensures Bounded(r1, i) {
      assert Bounded(r, i);
    }
    HandleItemsBounded(read, r1, id, s.frames, true, hangups);
  }

  lemma ConnectBounded(r: State, id: ClientId, peer: string)
    requires AllBounded(r)
    ensures AllBounded(Connect(r, id, peer))
  {
    if Listed(r, id) {
      HarmlessKeeps(r, Kill(r, id));
    } else {
      KilledOneMore(r.log, Opened(id));
      forall i ensures Bounded(Connect(r, id, peer), i) {
        assert Bounded(r, i);
      }
    }
  }

  lemma StepBounded(read: bytes -> Request, r: State, e: Event)
    requires AllBounded(r)
    ensures AllBounded(Step(read, r, e))
  {
    match e
    case Connected(id, peer) => ConnectBounded(r, id, peer);
    case Disconnected(id) => DisconnectBounded(r, id);
    case Data(id, data, hangups) =>
      if Listed(r, id) {
        match r.transports[id].kind
        case TypeClient => HarmlessKeeps(r, ReceiveTunnel(r, r.transports[id].uuid, data));
        case TypeServer =>
          if r.transports[id].slip {
            ReceiveSlipBounded(read, r, id, data, hangups);
          } else {
            ReceiveJsonBounded(read, r, id, data, hangups);
          }
        case TypeNone => ReceiveJsonBounded(read, r, id, data, hangups);
      }
    case Inactive(id) => HarmlessKeeps(r, Kill(r, id));
    case Tick => HarmlessKeeps(r, Publish(r));
  }

  /** Over any run, crowded or not. */
  lemma {:induction false} RunBounded(read: bytes -> Request, es: seq<Event>)
    ensures AllBounded(Run(read, es))
  {
    if es != [] {
      RunBounded(read, es[..|es| - 1]);
      StepBounded(read, Run(read, es[..|es| - 1]), es[|es| - 1]);
    }
  }

  // ---------------------------------------------------------------- who touches a socket's buffer

  /** Socket id, if it is there, keeps its buffer, and stays a server's in SLIP mode if it
      was one. */
  predicate KeepsSocket(r: State, r': State, id: ClientId) {
    if id !in r.transports then id !in r'.transports else
      && id in r'.transports && r'.transports[id].buffer == r.transports[id].buffer
      && (r.transports[id].kind == TypeServer && r.transports[id].slip ==>
            r'.transports[id].kind == TypeServer && r'.transports[id].slip)
  }

  lemma HandlePacketKeepsSocket(read: bytes -> Request, r: State, k: ClientId, packet: bytes, id: ClientId)
    ensures KeepsSocket(r, HandlePacket(read, r, k, packet), id)
  {
    match read(packet)
    case Unusable(n) =>
    case Call(n, p) =>
      InvokeKeepsSocket(r, k, p, id);
      var (r1, reply) := Invoke(r, k, p);
      assert KeepsSocket(r1, AfterResponse(Send(r1, k, Response(n, reply)), k), id);
  }

  lemma InvokeKeepsSocket(r: State, k: ClientId, p: Procedure, id: ClientId)
    ensures KeepsSocket(r, Invoke(r, k, p).0, id)
  {
  }

  lemma DisconnectKeepsSocket(r: State, gone: ClientId, id: ClientId)
    ensures KeepsSocket(r, Disconnect(r, gone), id)
  {
    if Listed(r, gone) {
      assert Disconnect(r, gone).transports == Unlist(r, gone).transports;
    }
  }

  lemma {:induction false} DisconnectAllKeepsSocket(r: State, gone: seq<ClientId>, id: ClientId)
    ensures KeepsSocket(r, DisconnectAll(r, gone), id)
  {
    if gone != [] {
      DisconnectAllKeepsSocket(r, gone[..|gone| - 1], id);
      DisconnectKeepsSocket(DisconnectAll(r, gone[..|gone| - 1]), gone[|gone| - 1], id);
    }
  }

  lemma HandleFrameKeepsSocket(read: bytes -> Request, r: State, k: ClientId, raw: bytes, id: ClientId)
    ensures KeepsSocket(r, HandleFrame(read, r, k, raw), id)
  {
    HandlePacketKeepsSocket(read, r, k, SlipDataProcessor.Parsed(raw).data, id);
  }

  lemma {:induction false} ItemsKeepSocket(read: bytes -> Request, r: State, k: ClientId, items: seq<bytes>, slip: bool,
                                         hangups: seq<seq<ClientId>>, id: ClientId)
    ensures KeepsSocket(r, HandleItems(read, r, k, items, slip, hangups), id)
  {
    if items != [] {
      var n := |items| - 1;
      var r1 := HandleItems(read, r, k, items[..n], slip, hangups);
      var r2 := if slip then HandleFrame(read, r1, k, items[n]) else HandlePacket(read, r1, k, items[n]);
      ItemsKeepSocket(read, r, k, items[..n], slip, hangups, id);
      HandlePacketKeepsSocket(read, r1, k, items[n], id);
      HandleFrameKeepsSocket(read, r1, k, items[n], id);
      DisconnectAllKeepsSocket(r2, Hangups(hangups, n), id);
    }
  }
}
