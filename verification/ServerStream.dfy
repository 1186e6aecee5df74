/** The way back over whole runs: the bytes that a server's socket has written since it
    switched to SLIP, whatever else happens between its chunks, and what becomes of every
    frame in them. */
module ServerStream {
  import opened Bytes
  import opened Messages
  import opened SlipDataProcessor
  import opened AddressAllocator
  import opened Registry
  import opened RegistryInvariant
  import opened RegistryRuns
  import opened RegistryWrites
  import opened RegistryBuffers
  import opened ServerToClients
  import opened RegistryForwards
  import JsonStream
  import Framing

  // ---------------------------------------------------------------- frames of a run

  /** A frame as it was cut off, from whom, and the sockets behind the addresses of its
      server at that moment. */
  datatype Handled = Handled(from: ClientId, raw: bytes, route: map<u16, ClientId>)

  function RouteOf(r: State, id: ClientId): map<u16, ClientId> {
    if id in r.transports && r.transports[id].uuid in r.servers then Route(r, r.transports[id].uuid) else map[]
  }

  function HandledItems(read: bytes -> Request, r: State, id: ClientId, items: seq<bytes>,
                        hangups: seq<seq<ClientId>>): (hs: seq<Handled>)
    ensures |hs| == |items| && forall i :: 0 <= i < |items| ==> hs[i].raw == items[i]
  {
    if items == [] then [] else
      var n := |items| - 1;
      HandledItems(read, r, id, items[..n], hangups)
      + [Handled(id, items[n], RouteOf(HandleItems(read, r, id, items[..n], true, hangups), id))]
  }

  /** A chunk of a server's socket in SLIP mode. */
  predicate BringsFrames(r: State, e: Event) {
    e.Data? && InSlip(r, e.id)
  }

  function HandledIn(read: bytes -> Request, r: State, e: Event): seq<Handled> {
    if BringsFrames(r, e) then
      var s := Framing.Assemble(r.transports[e.id].buffer, e.data);
      HandledItems(read, WithBuffer(r, e.id, s.buffer), e.id, s.frames, e.hangups)
    else []
  }

  /** Every frame the proxy ever handled. */
  function HandledAll(read: bytes -> Request, es: seq<Event>): seq<Handled> {
    if es == [] then [] else
      HandledAll(read, es[..|es| - 1]) + HandledIn(read, Run(read, es[..|es| - 1]), es[|es| - 1])
  }

  /** The frames of one socket since it opened. */
  function HandledBy(read: bytes -> Request, es: seq<Event>, id: ClientId): seq<Handled> {
    if es == [] then [] else
      var r, e := Run(read, es[..|es| - 1]), es[|es| - 1];
      if IsOpening(r, e) && e.id == id then []
      else HandledBy(read, es[..|es| - 1], id) + if BringsFrames(r, e) && e.id == id then HandledIn(read, r, e) else []
  }

  /** A socket that has switched to SLIP, whether it is still open or not. */
  predicate SpeaksSlip(r: State, id: ClientId) {
    id in r.transports && r.transports[id].kind == TypeServer && r.transports[id].slip
  }

  /** What the socket has written since its switch. */
  function Wrote(read: bytes -> Request, es: seq<Event>, id: ClientId): bytes {
    if es == [] then [] else
      var r, e := Run(read, es[..|es| - 1]), es[|es| - 1];
      if !SpeaksSlip(r, id) || (IsOpening(r, e) && e.id == id) then []
      else Wrote(read, es[..|es| - 1], id) + if BringsFrames(r, e) && e.id == id then e.data else []
  }

  /** What the buffer still held at the switch. */
  function LeftOver(read: bytes -> Request, es: seq<Event>, id: ClientId): bytes {
    var r' := Run(read, es);
    if es == [] || id !in r'.transports then [] else
      var r, e := Run(read, es[..|es| - 1]), es[|es| - 1];
      if !SpeaksSlip(r, id) || (IsOpening(r, e) && e.id == id) then r'.transports[id].buffer
      else LeftOver(read, es[..|es| - 1], id)
  }

  // ---------------------------------------------------------------- who touches the buffer

  predicate KeepsSlip(r: State, r': State, id: ClientId) {
    SpeaksSlip(r, id) ==> SpeaksSlip(r', id) && r'.transports[id].buffer == r.transports[id].buffer
  }

  lemma JsonKeepsSlip(read: bytes -> Request, r: State, k: ClientId, data: bytes, hangups: seq<seq<ClientId>>,
                      id: ClientId)
    requires k in r.transports && !(k == id && SpeaksSlip(r, id))
    ensures KeepsSlip(r, ReceiveJson(read, r, k, data, hangups), id)
  {
    var s := JsonStream.Ingest(r.transports[k].buffer, data);
    ItemsKeepSocket(read, WithBuffer(r, k, s.buffer), k, s.Packets(), false, hangups, id);
  }

  /** Nobody else touches the buffer of a socket in SLIP mode. */
  lemma OtherStepKeepsSlip(read: bytes -> Request, r: State, e: Event, id: ClientId)
    requires !(BringsFrames(r, e) && e.id == id) && !(IsOpening(r, e) && e.id == id)
    ensures KeepsSlip(r, Step(read, r, e), id)
  {
    match e
    case Disconnected(gone) => DisconnectKeepsSocket(r, gone, id);
    case Data(k, data, hangups) =>
      if BringsFrames(r, e) {
        var s := Framing.Assemble(r.transports[k].buffer, data);
        ItemsKeepSocket(read, WithBuffer(r, k, s.buffer), k, s.frames, true, hangups, id);
      } else if Listed(r, k) && r.transports[k].kind != TypeClient {
        JsonKeepsSlip(read, r, k, data, hangups, id);
      } else {
        assert Step(read, r, e).transports == r.transports;
      }
    case _ =>
  }

  /** A chunk of the socket itself leaves the reassembler's rest in it. */
  lemma OwnStepKeepsSlip(read: bytes -> Request, r: State, e: Event)
    requires BringsFrames(r, e)
    ensures SpeaksSlip(Step(read, r, e), e.id)
    ensures Step(read, r, e).transports[e.id].buffer == Framing.Assemble(r.transports[e.id].buffer, e.data).buffer
  {
    var s := Framing.Assemble(r.transports[e.id].buffer, e.data);
    ItemsKeepSocket(read, WithBuffer(r, e.id, s.buffer), e.id, s.frames, true, e.hangups, e.id);
  }

  // ---------------------------------------------------------------- bytes are cut into frames

  predicate AreCutFrom(hs: seq<Handled>, s: Framing.Assembly) {
    |hs| == |s.frames| && forall i :: 0 <= i < |hs| ==> hs[i].raw == s.frames[i]
  }

  lemma {:induction false} NothingBeforeTheSwitch(read: bytes -> Request, es: seq<Event>, id: ClientId)
    requires !SpeaksSlip(Run(read, es), id)
    ensures HandledBy(read, es, id) == []
  {
    if es != [] {
      var r, e := Run(read, es[..|es| - 1]), es[|es| - 1];
      if !(IsOpening(r, e) && e.id == id) {
        if BringsFrames(r, e) && e.id == id {
          OwnStepKeepsSlip(read, r, e);
        } else {
          OtherStepKeepsSlip(read, r, e, id);
          NothingBeforeTheSwitch(read, es[..|es| - 1], id);
        }
      }
    }
  }

  lemma CutGoesOn(hs: seq<Handled>, more: seq<Handled>, left: bytes, wrote: bytes, data: bytes)
    requires AreCutFrom(hs, Framing.Assemble(left, wrote))
    requires AreCutFrom(more, Framing.Assemble(Framing.Assemble(left, wrote).buffer, data))
    ensures AreCutFrom(hs + more, Framing.Assemble(left, wrote + data))
    ensures Framing.Assemble(left, wrote + data).buffer
            == Framing.Assemble(Framing.Assemble(left, wrote).buffer, data).buffer
  {
    Framing.AssembleContinues(left, wrote, data);
  }

  /** Whatever events come between the chunks of a socket, and however crowded the tables
      are: the frames that were handled are those of the bytes it wrote since its switch,
      cut in one piece, and the rest is in the buffer. */
  lemma {:induction false} StreamIsCut(read: bytes -> Request, es: seq<Event>, id: ClientId)
    requires SpeaksSlip(Run(read, es), id)
    ensures var s := Framing.Assemble(LeftOver(read, es, id), Wrote(read, es, id));
            AreCutFrom(HandledBy(read, es, id), s) && Run(read, es).transports[id].buffer == s.buffer
  {
    var init, r, e := es[..|es| - 1], Run(read, es[..|es| - 1]), es[|es| - 1];
    if !SpeaksSlip(r, id) {
      NothingBeforeTheSwitch(read, init, id);
    } else if BringsFrames(r, e) && e.id == id {
      StreamIsCut(read, init, id);
      OwnStepKeepsSlip(read, r, e);
      CutGoesOn(HandledBy(read, init, id), HandledIn(read, r, e), LeftOver(read, init, id), Wrote(read, init, id),
                e.data);
    } else {
      OtherStepKeepsSlip(read, r, e, id);
      StreamIsCut(read, init, id);
      assert Wrote(read, init, id) + [] == Wrote(read, init, id);
      assert HandledBy(read, init, id) + [] == HandledBy(read, init, id);
    }
  }

  // ---------------------------------------------------------------- frames are forwarded

  /** What a handled frame brings to whom. */
  function Arriving(h: Handled): seq<Delivery> {
    Routed(h.route, Parsed(h.raw))
  }

  function AllArriving(hs: seq<Handled>): seq<Delivery> {
    if hs == [] then [] else AllArriving(hs[..|hs| - 1]) + Arriving(hs[|hs| - 1])
  }

  ghost predicate AllRoutes(hs: seq<Handled>) {
    forall i :: 0 <= i < |hs| ==> IsRoute(hs[i].route)
  }

  lemma {:induction false} ArrivingAppends(xs: seq<Handled>, ys: seq<Handled>)
    ensures AllArriving(xs + ys) == AllArriving(xs) + AllArriving(ys)
    ensures AllRoutes(xs) && AllRoutes(ys) ==> AllRoutes(xs + ys)
  {
    if ys == [] {
      assert xs + ys == xs;
    } else {
      var n := |ys| - 1;
      assert (xs + ys)[..|xs + ys| - 1] == xs + ys[..n];
      ArrivingAppends(xs, ys[..n]);
      Regroup(AllArriving(xs), AllArriving(ys[..n]), Arriving(ys[n]));
    }
  }

  lemma RouteIsRoute(r: State, id: ClientId)
    requires Inv(r)
    ensures IsRoute(RouteOf(r, id))
  {
    if id in r.transports && r.transports[id].uuid in r.servers {
      InvariantRoutes(r, r.transports[id].uuid);
    }
  }

  lemma FrameArrives(read: bytes -> Request, r: State, id: ClientId, raw: bytes)
    requires Inv(r)
    ensures Delivered(HandleFrame(read, r, id, raw).log)
            == Delivered(r.log) + Arriving(Handled(id, raw, RouteOf(r, id)))
  {
    RouteIsRoute(r, id);
    var frame := Parsed(raw);
    if frame.socketAddress == JSON_ADDRESS {
      HandlePacketWrites(read, r, id, frame.data);
      NothingDelivered(r.log, HandlePacket(read, r, id, frame.data).log);
    } else {
      RoutedArrives(r, id, frame);
    }
  }

  lemma RoutedArrives(r: State, id: ClientId, frame: Frame)
    ensures Delivered(RouteFrame(r, id, frame).log) == Delivered(r.log) + Routed(RouteOf(r, id), frame)
  {
    if frame.socketAddress in RouteOf(r, id) {
      DeliveredOneMore(r.log, Sent(RouteOf(r, id)[frame.socketAddress], Forward(frame.data)));
    }
  }

  lemma FrameArrivesAmidHangups(read: bytes -> Request, r: State, id: ClientId, raw: bytes, gone: seq<ClientId>)
    requires Inv(r)
    ensures Delivered(DisconnectAll(HandleFrame(read, r, id, raw), gone).log)
            == Delivered(r.log) + Arriving(Handled(id, raw, RouteOf(r, id)))
  {
    var r1 := HandleFrame(read, r, id, raw);
    FrameArrives(read, r, id, raw);
    DisconnectAllWrites(r1, gone);
    NothingDelivered(r1.log, DisconnectAll(r1, gone).log);
  }

  lemma {:induction false} ItemsArrive(read: bytes -> Request, r: State, id: ClientId, items: seq<bytes>,
                                       hangups: seq<seq<ClientId>>)
    requires Inv(r) && Roomy(ItemsJoins(read, r, id, items, true, hangups))
    ensures Delivered(HandleItems(read, r, id, items, true, hangups).log)
            == Delivered(r.log) + AllArriving(HandledItems(read, r, id, items, hangups))
    ensures AllRoutes(HandledItems(read, r, id, items, hangups))
  {
    if items != [] {
      var n := |items| - 1;
      var r1 := HandleItems(read, r, id, items[..n], true, hangups);
      RoomyParts(ItemsJoins(read, r, id, items[..n], true, hangups), FrameJoins(read, r1, id, items[n]));
      HandleItemsKeeps(read, r, id, items[..n], true, hangups);
      ItemsArrive(read, r, id, items[..n], hangups);
      FrameArrivesAmidHangups(read, r1, id, items[n], Hangups(hangups, n));
      RouteIsRoute(r1, id);
      OneMoreArrives(Delivered(r.log), HandledItems(read, r, id, items[..n], hangups),
                     Handled(id, items[n], RouteOf(r1, id)));
    }
  }

  lemma OneMoreArrives(before: seq<Delivery>, hs: seq<Handled>, h: Handled)
    ensures (before + AllArriving(hs)) + Arriving(h) == before + AllArriving(hs + [h])
    ensures AllRoutes(hs) && IsRoute(h.route) ==> AllRoutes(hs + [h])
  {
    assert (hs + [h])[..|hs|] == hs;
  }

  lemma StepArrives(read: bytes -> Request, r: State, e: Event)
    requires Inv(r) && Roomy(StepJoins(read, r, e))
    ensures Delivered(Step(read, r, e).log) == Delivered(r.log) + AllArriving(HandledIn(read, r, e))
    ensures AllRoutes(HandledIn(read, r, e))
  {
    if BringsFrames(r, e) {
      var s := Framing.Assemble(r.transports[e.id].buffer, e.data);
      RetouchKeeps(r, e.id, r.transports[e.id].(buffer := s.buffer));
      ItemsArrive(read, WithBuffer(r, e.id, s.buffer), e.id, s.frames, e.hangups);
    } else {
      OtherStepDeliversNothing(read, r, e);
    }
  }

  lemma OtherStepDeliversNothing(read: bytes -> Request, r: State, e: Event)
    requires !BringsFrames(r, e)
    ensures Delivered(Step(read, r, e).log) == Delivered(r.log)
  {
    match e
    case Connected(id, peer) =>
      DeliveredOneMore(r.log, if Listed(r, id) then Killed({id}) else Opened(id));
    case Disconnected(id) =>
      DisconnectWrites(r, id);
      NothingDelivered(r.log, Step(read, r, e).log);
    case Data(id, data, hangups) => OtherChunkDeliversNothing(read, r, id, data, hangups);
    case Inactive(id) => DeliveredOneMore(r.log, Killed({id}));
    case Tick => DeliveredOneMore(r.log, Published(r.troughputCounter));
  }

  lemma OtherChunkDeliversNothing(read: bytes -> Request, r: State, id: ClientId, data: bytes,
                                  hangups: seq<seq<ClientId>>)
    requires !InSlip(r, id)
    ensures Delivered(Receive(read, r, id, data, hangups).log) == Delivered(r.log)
  {
    if Listed(r, id) {
      if r.transports[id].kind == TypeClient {
        TunnelDeliversNothing(r, r.transports[id].uuid, data);
      } else {
        ReceiveJsonWrites(read, r, id, data, hangups);
        NothingDelivered(r.log, ReceiveJson(read, r, id, data, hangups).log);
      }
    }
  }

  lemma TunnelDeliversNothing(r: State, c: Uuid, data: bytes)
    ensures Delivered(ReceiveTunnel(r, c, data).log) == Delivered(r.log)
  {
    if c in r.clients && r.clients[c].server.Some? && r.clients[c].server.value in r.servers {
      DeliveredOneMore(r.log, Sent(r.servers[r.clients[c].server.value].transport, Tunnel(r.clients[c].address, data)));
    }
  }

  /** Everything that was ever forwarded to anyone is what the frames brought that were
      handled, each to the socket behind its address at that moment, in order. */
  lemma {:induction false} EverythingForwarded(read: bytes -> Request, es: seq<Event>)
    requires Admissible(read, es)
    ensures Delivered(Run(read, es).log) == AllArriving(HandledAll(read, es)) && AllRoutes(HandledAll(read, es))
  {
    if es != [] {
      AdmissibleButLast(read, es);
      RunKeeps(read, es[..|es| - 1]);
      EverythingForwarded(read, es[..|es| - 1]);
      StepArrives(read, Run(read, es[..|es| - 1]), es[|es| - 1]);
      ArrivingAppends(HandledAll(read, es[..|es| - 1]), HandledIn(read, Run(read, es[..|es| - 1]), es[|es| - 1]));
    }
  }

  function FromOnly(hs: seq<Handled>, id: ClientId): seq<Handled> {
    if hs == [] then [] else
      FromOnly(hs[..|hs| - 1], id) + if hs[|hs| - 1].from == id then [hs[|hs| - 1]] else []
  }

  lemma {:induction false} FromAppends(xs: seq<Handled>, ys: seq<Handled>, id: ClientId)
    ensures FromOnly(xs + ys, id) == FromOnly(xs, id) + FromOnly(ys, id)
  {
    if ys == [] {
      assert xs + ys == xs;
    } else {
      assert (xs + ys)[..|xs + ys| - 1] == xs + ys[..|ys| - 1];
      FromAppends(xs, ys[..|ys| - 1], id);
    }
  }

  lemma {:induction false} ItemsAreFrom(read: bytes -> Request, r: State, id: ClientId, items: seq<bytes>,
                                        hangups: seq<seq<ClientId>>, k: ClientId)
    ensures FromOnly(HandledItems(read, r, id, items, hangups), k)
            == if k == id then HandledItems(read, r, id, items, hangups) else []
  {
    if items != [] {
      ItemsAreFrom(read, r, id, items[..|items| - 1], hangups, k);
      var hs := HandledItems(read, r, id, items, hangups);
      assert hs[..|hs| - 1] == HandledItems(read, r, id, items[..|items| - 1], hangups);
    }
  }

  lemma ChunkIsFrom(read: bytes -> Request, r: State, e: Event, k: ClientId)
    ensures FromOnly(HandledIn(read, r, e), k) == if BringsFrames(r, e) && e.id == k then HandledIn(read, r, e) else []
  {
    if BringsFrames(r, e) {
      var s := Framing.Assemble(r.transports[e.id].buffer, e.data);
      ItemsAreFrom(read, WithBuffer(r, e.id, s.buffer), e.id, s.frames, e.hangups, k);
    }
  }

  /** The frames of one socket are the last of those of the whole run that come from it. */
  lemma {:induction false} HandledByIsPartOfAll(read: bytes -> Request, es: seq<Event>,
                                                id: ClientId) returns (before: seq<Handled>)
    ensures FromOnly(HandledAll(read, es), id) == before + HandledBy(read, es, id)
  {
    if es == [] {
      before := [];
    } else {
      var init, r, e := es[..|es| - 1], Run(read, es[..|es| - 1]), es[|es| - 1];
      before := HandledByIsPartOfAll(read, init, id);
      FromAppends(HandledAll(read, init), HandledIn(read, r, e), id);
      ChunkIsFrom(read, r, e, id);
      var more := if BringsFrames(r, e) && e.id == id then HandledIn(read, r, e) else [];
      assert FromOnly(HandledAll(read, es), id) == (before + HandledBy(read, init, id)) + more;
      if IsOpening(r, e) && e.id == id {
        before := before + HandledBy(read, init, id);
      } else {
        InOrder(before, HandledBy(read, init, id), more);
      }
    }
  }

  lemma InOrder(a: seq<Handled>, b: seq<Handled>, c: seq<Handled>)
    ensures (a + b) + c == a + (b + c)
  {
  }

  lemma {:induction false} RoutesOf(read: bytes -> Request, es: seq<Event>, id: ClientId)
    requires Admissible(read, es)
    ensures AllRoutes(HandledBy(read, es, id))
  {
    if es != [] {
      AdmissibleButLast(read, es);
      RunKeeps(read, es[..|es| - 1]);
      RoutesOf(read, es[..|es| - 1], id);
      StepArrives(read, Run(read, es[..|es| - 1]), es[|es| - 1]);
    }
  }

  // ---------------------------------------------------------------- what one client hears

  /** The payloads of some deliveries that are for socket k. */
  function ToSocket(ds: seq<Delivery>, k: ClientId): seq<bytes> {
    if ds == [] then [] else
      ToSocket(ds[..|ds| - 1], k) + if ds[|ds| - 1].to == k then [ds[|ds| - 1].data] else []
  }

  lemma {:induction false} ToSocketAppends(xs: seq<Delivery>, ys: seq<Delivery>, k: ClientId)
    ensures ToSocket(xs + ys, k) == ToSocket(xs, k) + ToSocket(ys, k)
  {
    if ys == [] {
      assert xs + ys == xs;
    } else {
      assert (xs + ys)[..|xs + ys| - 1] == xs + ys[..|ys| - 1];
      ToSocketAppends(xs, ys[..|ys| - 1], k);
    }
  }

  lemma OneToSocket(d: Delivery, k: ClientId)
    ensures ToSocket([d], k) == if d.to == k then [d.data] else []
  {
    assert [d][..0] == [];
  }

  /** A frame holds something for a socket exactly if that is the one behind its address. */
  lemma FrameForArrives(r: State, id: ClientId, raw: bytes, k: ClientId)
    requires Inv(r)
    ensures FrameFor(r, id, raw, k) == ToSocket(Arriving(Handled(id, raw, RouteOf(r, id))), k)
  {
    var frame := Parsed(raw);
    RouteIsRoute(r, id);
    if frame.socketAddress in RouteOf(r, id) {
      OneToSocket(Delivery(RouteOf(r, id)[frame.socketAddress], frame.data), k);
    }
    LeadsTo(r, id, frame.socketAddress, k);
  }

  /** The route leads to the one socket behind the address. */
  lemma LeadsTo(r: State, id: ClientId, a: u16, k: ClientId)
    requires Inv(r)
    ensures id in r.transports && IsBehind(r, k, r.transports[id].uuid, a)
            <==> a in RouteOf(r, id) && RouteOf(r, id)[a] == k
  {
    if id in r.transports {
      BehindExactly(r, k, r.transports[id].uuid, a);
    }
  }

  lemma {:induction false} FramesForArrive(read: bytes -> Request, r: State, id: ClientId, items: seq<bytes>,
                                           hangups: seq<seq<ClientId>>, k: ClientId)
    requires Inv(r) && Roomy(ItemsJoins(read, r, id, items, true, hangups))
    ensures FramesFor(read, r, id, items, hangups, k)
            == ToSocket(AllArriving(HandledItems(read, r, id, items, hangups)), k)
  {
    if items != [] {
      var n := |items| - 1;
      var r1 := HandleItems(read, r, id, items[..n], true, hangups);
      var hs, h := HandledItems(read, r, id, items[..n], hangups), Handled(id, items[n], RouteOf(r1, id));
      RoomyParts(ItemsJoins(read, r, id, items[..n], true, hangups), FrameJoins(read, r1, id, items[n]));
      HandleItemsKeeps(read, r, id, items[..n], true, hangups);
      FramesForArrive(read, r, id, items[..n], hangups, k);
      FrameForArrives(r1, id, items[n], k);
      assert (hs + [h])[..|hs|] == hs;
      ToSocketAppends(AllArriving(hs), Arriving(h), k);
    }
  }

  lemma StepForArrives(read: bytes -> Request, r: State, e: Event, k: ClientId)
    requires Inv(r) && Roomy(StepJoins(read, r, e))
    ensures StepFor(read, r, e, k) == ToSocket(AllArriving(HandledIn(read, r, e)), k)
  {
    if BringsFrames(r, e) {
      var s := Framing.Assemble(r.transports[e.id].buffer, e.data);
      RetouchKeeps(r, e.id, r.transports[e.id].(buffer := s.buffer));
      FramesForArrive(read, WithBuffer(r, e.id, s.buffer), e.id, s.frames, e.hangups, k);
    }
  }

  /** The frames handled since socket k opened, whosever they are. */
  function HandledSince(read: bytes -> Request, es: seq<Event>, k: ClientId): seq<Handled> {
    if es == [] then [] else
      var r, e := Run(read, es[..|es| - 1]), es[|es| - 1];
      if IsOpening(r, e) && e.id == k then [] else HandledSince(read, es[..|es| - 1], k) + HandledIn(read, r, e)
  }

  /** What a socket has been forwarded since it opened is what the frames brought that led to
      it when they were handled, in order. */
  lemma ClientsHearTheStream(read: bytes -> Request, es: seq<Event>, k: ClientId)
    requires Admissible(read, es)
    ensures ForwardedTo(Run(read, es), k) == ToSocket(AllArriving(HandledSince(read, es, k)), k)
  {
    ClientsHearWhatWasWritten(read, es, k);
    WrittenArrives(read, es, k);
  }

  lemma {:induction false} WrittenArrives(read: bytes -> Request, es: seq<Event>, k: ClientId)
    requires Admissible(read, es)
    ensures WrittenFor(read, es, k) == ToSocket(AllArriving(HandledSince(read, es, k)), k)
  {
    if es != [] {
      var init, r, e := es[..|es| - 1], Run(read, es[..|es| - 1]), es[|es| - 1];
      AdmissibleButLast(read, es);
      RunKeeps(read, init);
      WrittenArrives(read, init, k);
      StepForArrives(read, r, e, k);
      ArrivingAppends(HandledSince(read, init, k), HandledIn(read, r, e));
      ToSocketAppends(AllArriving(HandledSince(read, init, k)), AllArriving(HandledIn(read, r, e)), k);
    }
  }

  // ---------------------------------------------------------------- meant and forwarded

  /** What the server meant with some frames, to whom their addresses led when they were handled. */
  function AllMeant(hs: seq<Handled>, frames: seq<Frame>): seq<Delivery>
    requires |hs| == |frames|
  {
    if frames == [] then [] else
      AllMeant(hs[..|hs| - 1], frames[..|frames| - 1]) + Routed(hs[|hs| - 1].route, frames[|frames| - 1])
  }

  /** The frames a server wrote, and what the proxy handled for them. */
  predicate AreHeardFrom(hs: seq<Handled>, frames: seq<Frame>) {
    |hs| == |frames| && forall i :: 0 <= i < |hs| ==> Parsed(hs[i].raw) == Framing.HeardByProxy(frames[i])
  }

  /** Each frame is for the JSON server or for a client attached when it is handled. */
  predicate AreExpected(hs: seq<Handled>, frames: seq<Frame>)
    requires |hs| == |frames|
  {
    forall i :: 0 <= i < |hs| ==> IsExpected(hs[i].route, frames[i])
  }

  predicate AllArriveAsMeant(hs: seq<Handled>, frames: seq<Frame>)
    requires |hs| == |frames|
  {
    forall i :: 0 <= i < |hs| ==> ArrivesAsMeant(hs[i].route, frames[i])
  }

  lemma {:induction false} AllAsMeant(hs: seq<Handled>, frames: seq<Frame>)
    requires AreHeardFrom(hs, frames) && AllRoutes(hs) && AllArriveAsMeant(hs, frames)
    ensures AllArriving(hs) == AllMeant(hs, frames)
  {
    if hs != [] {
      var n := |hs| - 1;
      AllAsMeant(hs[..n], frames[..n]);
      FrameArrivesExactly(hs[n].route, frames[n]);
    }
  }

  lemma {:induction false} AllAsMeantExactly(hs: seq<Handled>, frames: seq<Frame>)
    requires AreHeardFrom(hs, frames) && AllRoutes(hs) && AreExpected(hs, frames)
    ensures |AllArriving(hs)| <= |AllMeant(hs, frames)|
    ensures AllArriving(hs) == AllMeant(hs, frames) <==> AllArriveWell(frames)
  {
    if hs != [] {
      var n := |hs| - 1;
      var route, f := hs[n].route, frames[n];
      LastHeard(hs, frames);
      AllAsMeantExactly(hs[..n], frames[..n]);
      FrameArrivesExactly(route, f);
      SameEnds(AllArriving(hs[..n]), Routed(route, Framing.HeardByProxy(f)), AllMeant(hs[..n], frames[..n]),
               Routed(route, f));
      LastArrivesWell(frames);
    }
  }

  /** What holds of all frames holds of all but the last, and of the last. */
  lemma LastHeard(hs: seq<Handled>, frames: seq<Frame>)
    requires AreHeardFrom(hs, frames) && AllRoutes(hs) && AreExpected(hs, frames) && hs != []
    ensures var n := |hs| - 1;
            && AreHeardFrom(hs[..n], frames[..n]) && AllRoutes(hs[..n]) && AreExpected(hs[..n], frames[..n])
            && Arriving(hs[n]) == Routed(hs[n].route, Framing.HeardByProxy(frames[n]))
            && IsRoute(hs[n].route) && IsExpected(hs[n].route, frames[n])
  {
  }

  lemma LastArrivesWell(frames: seq<Frame>)
    requires frames != []
    ensures AllArriveWell(frames) <==> AllArriveWell(frames[..|frames| - 1]) && ArrivesWell(frames[|frames| - 1])
  {
    assert frames == frames[..|frames| - 1] + [frames[|frames| - 1]];
  }

  lemma HeardFromBytes(hs: seq<Handled>, frames: seq<Frame>, begun: bytes)
    requires EndFree(begun) && AreCutFrom(hs, Framing.Assemble([], Framing.Wires(frames) + begun))
    ensures AreHeardFrom(hs, frames) && Framing.Assemble([], Framing.Wires(frames) + begun).buffer == begun
  {
    Framing.ProxyReadsBodies(frames);
    Framing.AssembleContinues([], Framing.Wires(frames), begun);
    Framing.AssembleEndFree([], begun);
  }

  /** Demultiplexing at the proxy, from the bytes. Take any run in which registrations find
      room, and any server's socket that has switched to SLIP with nothing left over. If what
      it wrote since then is some frames and the beginning of another, then each of them was
      handled once, in order, whatever happened between the chunks; it reached whom it was
      meant for, or nobody if that is nobody, exactly when `ArrivesAsMeant` says so; and if
      all were for attached clients or for the JSON server, then what was forwarded for them
      is what was meant exactly when no frame for a client holds a reserved byte. */
  lemma ServerStreamArrivesExactly(read: bytes -> Request, es: seq<Event>, id: ClientId, frames: seq<Frame>,
                                   begun: bytes)
    requires Admissible(read, es) && SpeaksSlip(Run(read, es), id) && LeftOver(read, es, id) == []
    requires Wrote(read, es, id) == Framing.Wires(frames) + begun && EndFree(begun)
    ensures var hs := HandledBy(read, es, id);
            && Run(read, es).transports[id].buffer == begun && AreHeardFrom(hs, frames)
            && (forall i :: 0 <= i < |hs| ==>
                  (Arriving(hs[i]) == Routed(hs[i].route, frames[i]) <==> ArrivesAsMeant(hs[i].route, frames[i])))
            && (AllArriveAsMeant(hs, frames) ==> AllArriving(hs) == AllMeant(hs, frames))
            && (AreExpected(hs, frames) ==> (AllArriving(hs) == AllMeant(hs, frames) <==> AllArriveWell(frames)))
  {
    var hs := HandledBy(read, es, id);
    StreamIsCut(read, es, id);
    HeardFromBytes(hs, frames, begun);
    RoutesOf(read, es, id);
    if AllArriveAsMeant(hs, frames) {
      AllAsMeant(hs, frames);
    }
    if AreExpected(hs, frames) {
      AllAsMeantExactly(hs, frames);
    }
    forall i | 0 <= i < |hs|
      ensures Arriving(hs[i]) == Routed(hs[i].route, frames[i]) <==> ArrivesAsMeant(hs[i].route, frames[i])
    {
      FrameArrivesExactly(hs[i].route, frames[i]);
    }
  }
}
