/** The way back: what a server writes to its tunnel sockets, cut into whatever chunks the
    network likes, as the proxy forwards it to the clients. */
module ServerToClients {
  import opened Bytes
  import opened Messages
  import opened SlipDataProcessor
  import opened Registry
  import opened RegistryInvariant
  import opened RegistryWrites
  import Framing

  /** A server's socket in SLIP mode. */
  predicate InSlip(r: State, id: ClientId) {
    Listed(r, id) && r.transports[id].kind == TypeServer && r.transports[id].slip
  }

  function ReceiveAll(read: bytes -> Request, r: State, id: ClientId, chunks: seq<bytes>): State {
    if chunks == [] then r else
      Receive(read, ReceiveAll(read, r, id, chunks[..|chunks| - 1]), id, chunks[|chunks| - 1], [])
  }

  // ---------------------------------------------------------------- chunks do not matter

  /** r' is what r becomes whatever its buffer holds, which it leaves alone. */
  predicate SameBut(r: State, r': State, s: State, s': State, id: ClientId, buffer: bytes) {
    InSlip(r, id) && s == WithBuffer(r, id, buffer) && InSlip(r', id) && s' == WithBuffer(r', id, buffer)
  }

  lemma InvokeIgnoresBuffer(r: State, id: ClientId, p: Procedure, buffer: bytes)
    requires InSlip(r, id)
    ensures var s := WithBuffer(r, id, buffer);
            Invoke(s, id, p).1 == Invoke(r, id, p).1
                && SameBut(r, Invoke(r, id, p).0, s, Invoke(s, id, p).0, id, buffer)
  {
    var s := WithBuffer(r, id, buffer);
    var r', s' := Invoke(r, id, p).0, Invoke(s, id, p).0;
    assert s'.transports == r'.transports[id := r'.transports[id].(buffer := buffer)];
  }

  lemma AnswerIgnoresBuffer(r: State, id: ClientId, c: Control, buffer: bytes)
    requires InSlip(r, id)
    ensures SameBut(r, Send(r, id, c), WithBuffer(r, id, buffer), Send(WithBuffer(r, id, buffer), id, c), id, buffer)
  {
  }

  lemma AfterResponseIgnoresBuffer(r: State, id: ClientId, buffer: bytes)
    requires InSlip(r, id)
    ensures SameBut(r, AfterResponse(r, id), WithBuffer(r, id, buffer),
                    AfterResponse(WithBuffer(r, id, buffer), id), id, buffer)
  {
  }

  lemma PacketIgnoresBuffer(read: bytes -> Request, r: State, id: ClientId, packet: bytes, buffer: bytes)
    requires InSlip(r, id)
    ensures SameBut(r, HandlePacket(read, r, id, packet), WithBuffer(r, id, buffer),
                    HandlePacket(read, WithBuffer(r, id, buffer), id, packet), id, buffer)
  {
    match read(packet)
    case Unusable(n) =>
      AnswerIgnoresBuffer(r, id, ErrorResponse(n), buffer);
    case Call(n, p) =>
      InvokeIgnoresBuffer(r, id, p, buffer);
      var (r1, reply) := Invoke(r, id, p);
      AnswerIgnoresBuffer(r1, id, Response(n, reply), buffer);
      AfterResponseIgnoresBuffer(Send(r1, id, Response(n, reply)), id, buffer);
  }

  lemma FrameIgnoresBuffer(read: bytes -> Request, r: State, id: ClientId, raw: bytes, buffer: bytes)
    requires InSlip(r, id)
    ensures SameBut(r, HandleFrame(read, r, id, raw), WithBuffer(r, id, buffer),
                    HandleFrame(read, WithBuffer(r, id, buffer), id, raw), id, buffer)
  {
    PacketIgnoresBuffer(read, r, id, Parsed(raw).data, buffer);
  }

  /** The frames of a chunk, without a disconnect among them. */
  function HandleFrames(read: bytes -> Request, r: State, id: ClientId, frames: seq<bytes>): State {
    HandleItems(read, r, id, frames, true, [])
  }

  lemma FramesOneMore(read: bytes -> Request, r: State, id: ClientId, frames: seq<bytes>)
    requires frames != []
    ensures HandleFrames(read, r, id, frames)
            == HandleFrame(read, HandleFrames(read, r, id, frames[..|frames| - 1]), id, frames[|frames| - 1])
  {
    var r1 := HandleFrames(read, r, id, frames[..|frames| - 1]);
    assert DisconnectAll(HandleFrame(read, r1, id, frames[|frames| - 1]), [])
        == HandleFrame(read, r1, id, frames[|frames| - 1]);
  }

  lemma {:induction false} FramesIgnoreBuffer(read: bytes -> Request, r: State, id: ClientId, frames: seq<bytes>,
                                              buffer: bytes)
    requires InSlip(r, id)
    ensures SameBut(r, HandleFrames(read, r, id, frames), WithBuffer(r, id, buffer),
                    HandleFrames(read, WithBuffer(r, id, buffer), id, frames), id, buffer)
  {
    if frames != [] {
      FramesIgnoreBuffer(read, r, id, frames[..|frames| - 1], buffer);
      FramesOneMore(read, r, id, frames);
      FramesOneMore(read, WithBuffer(r, id, buffer), id, frames);
      FrameIgnoresBuffer(read, HandleFrames(read, r, id, frames[..|frames| - 1]), id, frames[|frames| - 1], buffer);
    }
  }

  lemma {:induction false} FramesAppend(read: bytes -> Request, r: State, id: ClientId, xs: seq<bytes>, ys: seq<bytes>)
    ensures HandleFrames(read, r, id, xs + ys) == HandleFrames(read, HandleFrames(read, r, id, xs), id, ys)
  {
    if ys == [] {
      assert xs + ys == xs;
    } else {
      var n := |ys| - 1;
      assert (xs + ys)[..|xs + ys| - 1] == xs + ys[..n];
      FramesOneMore(read, r, id, xs + ys);
      FramesOneMore(read, HandleFrames(read, r, id, xs), id, ys);
      FramesAppend(read, r, id, xs, ys[..n]);
    }
  }

  /** One chunk: its frames are handled, and the rest of it is kept. */
  function AfterStream(read: bytes -> Request, r: State, id: ClientId, s: Framing.Assembly): State
    requires InSlip(r, id)
  {
    FramesIgnoreBuffer(read, r, id, s.frames, s.buffer);
    WithBuffer(HandleFrames(read, r, id, s.frames), id, s.buffer)
  }

  lemma OneChunk(read: bytes -> Request, r: State, id: ClientId, data: bytes)
    requires InSlip(r, id)
    ensures Receive(read, r, id, data, []) == AfterStream(read, r, id, Framing.Assemble(r.transports[id].buffer, data))
    ensures InSlip(Receive(read, r, id, data, []), id)
  {
    var s := Framing.Assemble(r.transports[id].buffer, data);
    FramesIgnoreBuffer(read, r, id, s.frames, s.buffer);
  }

  lemma OneMoreChunk(read: bytes -> Request, r: State, id: ClientId, s: Framing.Assembly, data: bytes)
    requires InSlip(r, id)
    ensures var t := Framing.Assemble(s.buffer, data);
            Receive(read, AfterStream(read, r, id, s), id, data, [])
                == AfterStream(read, r, id, Framing.Assembly(s.frames + t.frames, t.buffer))
  {
    var t := Framing.Assemble(s.buffer, data);
    var r1 := HandleFrames(read, r, id, s.frames);
    FramesIgnoreBuffer(read, r, id, s.frames, s.buffer);
    OneChunk(read, WithBuffer(r1, id, s.buffer), id, data);
    FramesIgnoreBuffer(read, r1, id, t.frames, s.buffer);
    FramesAppend(read, r, id, s.frames, t.frames);
  }

  /** Any stream in any chunks, with frames for the JSON server, for clients and for nobody,
      and whatever the buffer held before: the effect is that of the stream in one piece. */
  lemma {:induction false} ServerIgnoresChunking(read: bytes -> Request, r: State, id: ClientId, chunks: seq<bytes>)
    requires InSlip(r, id)
    ensures ReceiveAll(read, r, id, chunks)
            == AfterStream(read, r, id, Framing.Assemble(r.transports[id].buffer, Concat(chunks)))
  {
    if chunks == [] {
      assert WithBuffer(r, id, r.transports[id].buffer) == r;
    } else {
      var init, data := chunks[..|chunks| - 1], chunks[|chunks| - 1];
      ServerIgnoresChunking(read, r, id, init);
      Framing.AssembleContinues(r.transports[id].buffer, Concat(init), data);
      OneMoreChunk(read, r, id, Framing.Assemble(r.transports[id].buffer, Concat(init)), data);
    }
  }

  // ---------------------------------------------------------------- what is forwarded

  datatype Delivery = Delivery(to: ClientId, data: bytes)

  /** Everything forwarded in a log, to whomever. */
  function Delivered(log: seq<Entry>): seq<Delivery> {
    if log == [] then [] else
      Delivered(log[..|log| - 1]) + DeliveredBy(log[|log| - 1])
  }

  function DeliveredBy(e: Entry): seq<Delivery> {
    if e.Sent? && e.message.Forward? then [Delivery(e.to, e.message.data)] else []
  }

  lemma DeliveredOneMore(log: seq<Entry>, e: Entry)
    ensures Delivered(log + [e]) == Delivered(log) + DeliveredBy(e)
  {
    assert (log + [e])[..|log|] == log;
  }

  lemma {:induction false} NothingDelivered(log: seq<Entry>, log': seq<Entry>)
    requires Writes(log, log', false)
    ensures Delivered(log') == Delivered(log)
    decreases |log'|
  {
    if |log'| == |log| {
      assert log' == log;
    } else {
      NothingDelivered(log, log'[..|log'| - 1]);
      assert IsOrdinary(log'[|log'| - 1], false);
    }
  }

  /** Which socket stands behind each address of a server. */
  function Route(r: State, u: Uuid): map<u16, ClientId>
    requires u in r.servers
  {
    map a | a in r.servers[u].byAddress :: ClientTransport(r, r.servers[u].byAddress[a])
  }

  function Routed(route: map<u16, ClientId>, frame: Frame): seq<Delivery> {
    if frame.socketAddress in route then [Delivery(route[frame.socketAddress], frame.data)] else []
  }

  function AllRouted(route: map<u16, ClientId>, frames: seq<Frame>): seq<Delivery> {
    if frames == [] then [] else
      AllRouted(route, frames[..|frames| - 1]) + Routed(route, frames[|frames| - 1])
  }

  function ParsedAll(items: seq<bytes>): (frames: seq<Frame>)
    ensures |frames| == |items|
    ensures forall i :: 0 <= i < |items| ==> frames[i] == Parsed(items[i])
  {
    seq(|items|, i requires 0 <= i < |items| => Parsed(items[i]))
  }

  /** No two addresses lead to the same socket, and address 0 leads nowhere. */
  predicate IsRoute(route: map<u16, ClientId>) {
    0 !in route && forall a, b :: a in route && b in route && route[a] == route[b] ==> a == b
  }

  lemma InvariantRoutes(r: State, u: Uuid)
    requires Tables(r) && Links(r) && AllSettled(r) && u in r.servers
    ensures IsRoute(Route(r, u))
  {
    var route := Route(r, u);
    forall a | a in route ensures IsIndexed(r, u, a) && IsSettled(r, r.servers[u].byAddress[a]) {
    }
    forall a, b | a in route && b in route && route[a] == route[b] ensures a == b {
      var c, d := r.servers[u].byAddress[a], r.servers[u].byAddress[b];
      assert IsIndexed(r, u, a) && IsIndexed(r, u, b);
      assert HoldsTransport(r, r.clients[c].transport, TypeClient, c);
      assert HoldsTransport(r, r.clients[d].transport, TypeClient, d);
    }
  }

  /** The server of a socket, and that it stays in place while its own frames are handled. */
  predicate Serves(r: State, r': State, id: ClientId, u: Uuid) {
    && InSlip(r', id) && r'.transports[id].uuid == u && u in r.servers
    && r'.servers == r.servers && r'.clients == r.clients
  }

  lemma PacketServes(read: bytes -> Request, r: State, id: ClientId, packet: bytes, u: Uuid)
    requires Serves(r, r, id, u)
    ensures Serves(r, HandlePacket(read, r, id, packet), id, u)
  {
    match read(packet)
    case Unusable(n) =>
    case Call(n, p) =>
      assert Serves(r, Invoke(r, id, p).0, id, u);
  }

  lemma FrameDelivers(read: bytes -> Request, r: State, id: ClientId, raw: bytes, u: Uuid)
    requires Serves(r, r, id, u) && 0 !in r.servers[u].byAddress
    ensures Serves(r, HandleFrame(read, r, id, raw), id, u)
    ensures Delivered(HandleFrame(read, r, id, raw).log) == Delivered(r.log) + Routed(Route(r, u), Parsed(raw))
  {
    var frame := Parsed(raw);
    if frame.socketAddress == 0 {
      PacketServes(read, r, id, frame.data, u);
      HandlePacketWrites(read, r, id, frame.data);
      NothingDelivered(r.log, HandlePacket(read, r, id, frame.data).log);
    } else if frame.socketAddress in r.servers[u].byAddress {
      DeliveredOneMore(r.log, Sent(ClientTransport(r, r.servers[u].byAddress[frame.socketAddress]),
                                   Forward(frame.data)));
    }
  }

  lemma NextFrameDelivers(read: bytes -> Request, r: State, r1: State, id: ClientId, raw: bytes, u: Uuid)
    requires Serves(r, r1, id, u) && 0 !in r.servers[u].byAddress
    ensures Serves(r, HandleFrame(read, r1, id, raw), id, u)
    ensures Delivered(HandleFrame(read, r1, id, raw).log) == Delivered(r1.log) + Routed(Route(r, u), Parsed(raw))
  {
    FrameDelivers(read, r1, id, raw, u);
    assert Route(r1, u) == Route(r, u);
  }

  /** Frames of any kind: what is forwarded are the payloads of those that parse to the
      address of a client, each to this client, in order. */
  lemma {:induction false} FramesDeliver(read: bytes -> Request, r: State, id: ClientId, items: seq<bytes>, u: Uuid)
    requires Serves(r, r, id, u) && 0 !in r.servers[u].byAddress
    ensures Serves(r, HandleFrames(read, r, id, items), id, u)
    ensures Delivered(HandleFrames(read, r, id, items).log)
            == Delivered(r.log) + AllRouted(Route(r, u), ParsedAll(items))
  {
    if items != [] {
      var n := |items| - 1;
      FramesDeliver(read, r, id, items[..n], u);
      FramesOneMore(read, r, id, items);
      NextFrameDelivers(read, r, HandleFrames(read, r, id, items[..n]), id, items[n], u);
      ParsedOneMore(Route(r, u), items);
      Regroup(Delivered(r.log), AllRouted(Route(r, u), ParsedAll(items[..n])), Routed(Route(r, u), Parsed(items[n])));
    }
  }

  lemma Regroup(a: seq<Delivery>, b: seq<Delivery>, c: seq<Delivery>)
    ensures (a + b) + c == a + (b + c)
  {
  }

  lemma ParsedOneMore(route: map<u16, ClientId>, items: seq<bytes>)
    requires items != []
    ensures AllRouted(route, ParsedAll(items))
            == AllRouted(route, ParsedAll(items[..|items| - 1])) + Routed(route, Parsed(items[|items| - 1]))
  {
    var n := |items| - 1;
    assert ParsedAll(items) == ParsedAll(items[..n]) + [Parsed(items[n])];
    RoutedOneMore(route, ParsedAll(items[..n]), Parsed(items[n]));
  }

  lemma RoutedOneMore(route: map<u16, ClientId>, frames: seq<Frame>, frame: Frame)
    ensures AllRouted(route, frames + [frame]) == AllRouted(route, frames) + Routed(route, frame)
  {
    assert (frames + [frame])[..|frames|] == frames;
  }

  // ---------------------------------------------------------------- meant and heard

  function HeardAll(frames: seq<Frame>): (heard: seq<Frame>)
    ensures |heard| == |frames|
    ensures forall i :: 0 <= i < |frames| ==> heard[i] == Framing.HeardByProxy(frames[i])
  {
    seq(|frames|, i requires 0 <= i < |frames| => Framing.HeardByProxy(frames[i]))
  }

  /** A frame is heard as one for the JSON server exactly when it is one. */
  lemma HeardAsJsonExactly(frame: Frame)
    ensures Framing.HeardByProxy(frame).socketAddress == 0 <==> frame.socketAddress == 0
  {
    var hi: byte, lo: byte := frame.socketAddress / 0x100, frame.socketAddress % 0x100;
    var head: bytes := [hi, lo];
    assert Built(frame) == head + frame.data;
    Framing.EscapedAppends(head, frame.data);
    EscapedPair(hi, lo);
    HeardHead(hi, lo, Escaped(frame.data));
  }

  lemma EscapedPair(hi: byte, lo: byte)
    ensures Escaped([hi, lo]) == Escape(hi) + Escape(lo)
  {
    EscapeOneMore([hi], lo);
    EscapeOneMore([], hi);
    assert [hi] + [lo] == [hi, lo] && [] + [hi] == [hi];
  }

  lemma HeardHead(hi: byte, lo: byte, rest: bytes)
    ensures Parsed((Escape(hi) + Escape(lo)) + rest).socketAddress == 0 <==> hi == 0 && lo == 0
  {
    var e := (Escape(hi) + Escape(lo)) + rest;
    assert e[0] == Escape(hi)[0] && (hi == 0 ==> e[1] == Escape(lo)[0]);
  }

  /** Every frame is for the JSON server or for an attached client. */
  predicate AllExpected(route: map<u16, ClientId>, frames: seq<Frame>) {
    forall f :: f in frames ==> IsExpected(route, f)
  }

  predicate IsExpected(route: map<u16, ClientId>, frame: Frame) {
    frame.socketAddress == 0 || frame.socketAddress in route
  }

  /** A frame for a client is heard as it was meant. */
  predicate ArrivesWell(frame: Frame) {
    frame.socketAddress != 0 ==> Unreserved(Built(frame))
  }

  predicate AllArriveWell(frames: seq<Frame>) {
    forall f :: f in frames ==> ArrivesWell(f)
  }

  /** Nobody notices the difference: the frame is for the JSON server, or it is heard as it
      was meant, or nobody holds the address it was meant for, nor the one it is heard for. */
  predicate ArrivesAsMeant(route: map<u16, ClientId>, frame: Frame) {
    ArrivesWell(frame) || (frame.socketAddress !in route && Framing.HeardByProxy(frame).socketAddress !in route)
  }

  /** Any frame, for whomever: it brings what was meant to whom it was meant for exactly as
      `ArrivesAsMeant` says. For an attached client this is so exactly when the frame holds
      no reserved byte; else the client gets other bytes, or another client does, or nobody. */
  lemma FrameArrivesExactly(route: map<u16, ClientId>, frame: Frame)
    requires IsRoute(route)
    ensures Routed(route, Framing.HeardByProxy(frame)) == Routed(route, frame) <==> ArrivesAsMeant(route, frame)
    ensures IsExpected(route, frame) ==>
              (ArrivesAsMeant(route, frame) <==> ArrivesWell(frame))
              && |Routed(route, Framing.HeardByProxy(frame))| <= |Routed(route, frame)|
  {
    Framing.ProxyHearsExactly(frame);
    HeardAsJsonExactly(frame);
  }

  lemma {:induction false} FramesArriveExactly(route: map<u16, ClientId>, frames: seq<Frame>)
    requires IsRoute(route) && AllExpected(route, frames)
    ensures AllRouted(route, HeardAll(frames)) == AllRouted(route, frames) <==> AllArriveWell(frames)
    ensures |AllRouted(route, HeardAll(frames))| <= |AllRouted(route, frames)|
  {
    if frames != [] {
      var n := |frames| - 1;
      var last := frames[n];
      LastFrame(route, frames);
      FramesArriveExactly(route, frames[..n]);
      FrameArrivesExactly(route, last);
      SameEnds(AllRouted(route, HeardAll(frames[..n])), Routed(route, Framing.HeardByProxy(last)),
               AllRouted(route, frames[..n]), Routed(route, last));
    }
  }

  lemma LastFrame(route: map<u16, ClientId>, frames: seq<Frame>)
    requires frames != [] && AllExpected(route, frames)
    ensures var n := |frames| - 1;
            && AllExpected(route, frames[..n]) && IsExpected(route, frames[n])
            && (AllArriveWell(frames) <==> AllArriveWell(frames[..n]) && ArrivesWell(frames[n]))
            && AllRouted(route, HeardAll(frames))
               == AllRouted(route, HeardAll(frames[..n])) + Routed(route, Framing.HeardByProxy(frames[n]))
  {
    var n := |frames| - 1;
    assert frames == frames[..n] + [frames[n]];
    assert frames[n] in frames && forall f :: f in frames[..n] ==> f in frames;
    assert HeardAll(frames) == HeardAll(frames[..n]) + [Framing.HeardByProxy(frames[n])];
    RoutedOneMore(route, HeardAll(frames[..n]), Framing.HeardByProxy(frames[n]));
  }

  lemma SameEnds(a: seq<Delivery>, x: seq<Delivery>, b: seq<Delivery>, y: seq<Delivery>)
    requires |a| <= |b| && |x| <= |y|
    ensures a + x == b + y <==> a == b && x == y
  {
    if a + x == b + y {
      assert |a| == |b|;
      assert a == (a + x)[..|a|] && b == (b + y)[..|a|];
      assert x == (a + x)[|a|..] && y == (b + y)[|a|..];
    }
  }

  /** Any stream in any chunks: what is forwarded is what the proxy hears in it. */
  lemma StreamDelivers(read: bytes -> Request, r: State, id: ClientId, u: Uuid, chunks: seq<bytes>)
    requires Serves(r, r, id, u) && 0 !in r.servers[u].byAddress
    ensures var r', s := ReceiveAll(read, r, id, chunks), Framing.Assemble(r.transports[id].buffer, Concat(chunks));
            && Delivered(r'.log) == Delivered(r.log) + AllRouted(Route(r, u), ParsedAll(s.frames))
            && Serves(r, r', id, u) && r'.transports[id].buffer == s.buffer
  {
    ServerIgnoresChunking(read, r, id, chunks);
    FramesDeliver(read, r, id, Framing.Assemble(r.transports[id].buffer, Concat(chunks)).frames, u);
  }

  /** Whatever frames a server writes, and however they are cut into chunks: each brings
      what was meant to whom it was meant for exactly as `ArrivesAsMeant` says; and if all
      are for attached clients and for the JSON server, then what the proxy forwards is
      exactly the payloads, each to the client it was meant for, in order, if and only if no
      address of a client and no payload for one holds a 0xC0 or 0xDB byte. */
  lemma ServerReachesClientsExactly(read: bytes -> Request, r: State, id: ClientId, u: Uuid, frames: seq<Frame>,
                                    chunks: seq<bytes>)
    requires Inv(r) && Serves(r, r, id, u) && r.transports[id].buffer == []
    requires Concat(chunks) == Framing.Wires(frames)
    ensures var r', route := ReceiveAll(read, r, id, chunks), Route(r, u);
            && Serves(r, r', id, u) && r'.transports[id].buffer == []
            && Delivered(r'.log) == Delivered(r.log) + AllRouted(route, HeardAll(frames))
            && (forall i :: 0 <= i < |frames| ==>
                  (Routed(route, HeardAll(frames)[i]) == Routed(route, frames[i])
                   <==> ArrivesAsMeant(route, frames[i])))
            && (AllExpected(route, frames) ==>
                  (Delivered(r'.log) == Delivered(r.log) + AllRouted(route, frames) <==> AllArriveWell(frames)))
  {
    InvariantRoutes(r, u);
    assert 0 !in Route(r, u);
    StreamDelivers(read, r, id, u, chunks);
    BodiesAreHeard(frames);
    EachArrivesExactly(Route(r, u), frames);
    if AllExpected(Route(r, u), frames) {
      FramesArriveExactly(Route(r, u), frames);
      SameAfter(Delivered(r.log), AllRouted(Route(r, u), HeardAll(frames)), AllRouted(Route(r, u), frames));
    }
  }

  lemma EachArrivesExactly(route: map<u16, ClientId>, frames: seq<Frame>)
    requires IsRoute(route)
    ensures forall i :: 0 <= i < |frames| ==>
              (Routed(route, HeardAll(frames)[i]) == Routed(route, frames[i]) <==> ArrivesAsMeant(route, frames[i]))
  {
    forall i | 0 <= i < |frames|
      ensures Routed(route, HeardAll(frames)[i]) == Routed(route, frames[i]) <==> ArrivesAsMeant(route, frames[i])
    {
      FrameArrivesExactly(route, frames[i]);
    }
  }

  /** With frames for nobody two wrongs can make a right: one for address 0xC000 is taken for
      one to the client at 0xDBDC, a later one to that client is lost, and in sum the client
      got what was meant. */
  lemma TwoWrongsMakeARight(k: ClientId, payload: bytes)
    requires Unreserved(payload)
    ensures var route: map<u16, ClientId> := map[0xDBDC := k];
            var stray, lost := Frame(0xC000, payload), Frame(0xDBDC, [0x00] + payload);
            && !ArrivesAsMeant(route, stray) && !ArrivesAsMeant(route, lost)
            && AllRouted(route, HeardAll([stray, lost])) == AllRouted(route, [stray, lost])
  {
    StrayIsHeard(END, 0x00, payload);
    HeardAt(ESC, TRANSPOSED_END, [0x00] + payload);
    StrayForLost(map[0xDBDC := k], Frame(0xC000, payload), Frame(0xDBDC, [0x00] + payload));
  }

  /** A frame taken for another that is lost itself. */
  lemma StrayForLost(route: map<u16, ClientId>, stray: Frame, lost: Frame)
    requires Framing.HeardByProxy(stray) == lost
    requires stray.socketAddress !in route && lost.socketAddress in route
    requires Framing.HeardByProxy(lost).socketAddress !in route
    requires stray.socketAddress != 0 && lost.socketAddress != 0
    ensures !ArrivesAsMeant(route, stray) && !ArrivesAsMeant(route, lost)
    ensures AllRouted(route, HeardAll([stray, lost])) == AllRouted(route, [stray, lost])
  {
    TwoFrames(route, stray, lost);
    Framing.ProxyHearsExactly(stray);
    Framing.ProxyHearsExactly(lost);
  }

  lemma StrayIsHeard(hi: byte, lo: byte, payload: bytes)
    requires hi == END && lo != END && lo != ESC && Unreserved(payload)
    ensures Framing.HeardByProxy(Frame(hi as int * 0x100 + lo as int, payload)) == Frame(0xDBDC, [lo] + payload)
  {
    EscapingIsVisible(payload);
    HeardAt(hi, lo, payload);
  }

  lemma TwoFrames(route: map<u16, ClientId>, f: Frame, g: Frame)
    ensures AllRouted(route, [f, g]) == Routed(route, f) + Routed(route, g)
    ensures AllRouted(route, HeardAll([f, g]))
            == Routed(route, Framing.HeardByProxy(f)) + Routed(route, Framing.HeardByProxy(g))
  {
    InTurn(route, f, g);
    InTurn(route, Framing.HeardByProxy(f), Framing.HeardByProxy(g));
    assert HeardAll([f, g]) == [Framing.HeardByProxy(f), Framing.HeardByProxy(g)];
  }

  lemma InTurn(route: map<u16, ClientId>, f: Frame, g: Frame)
    ensures AllRouted(route, [f, g]) == Routed(route, f) + Routed(route, g)
  {
    assert [f, g] == ([] + [f]) + [g];
    RoutedOneMore(route, [], f);
    RoutedOneMore(route, [] + [f], g);
  }

  /** An address with a reserved first byte is heard as that byte's pair. */
  lemma HeardAt(hi: byte, lo: byte, data: bytes)
    requires hi == END || hi == ESC
    ensures Framing.HeardByProxy(Frame(hi as int * 0x100 + lo as int, data))
            == Frame(Escape(hi)[0] as int * 0x100 + Escape(hi)[1] as int, Escape(lo) + Escaped(data))
  {
    var head: bytes := [hi, lo];
    assert Built(Frame(hi as int * 0x100 + lo as int, data)) == head + data;
    Framing.EscapedAppends(head, data);
    EscapedPair(hi, lo);
    Framing.HearAfter(Escape(hi), Escape(lo), Escaped(data));
  }

  lemma BodiesAreHeard(frames: seq<Frame>)
    ensures Framing.Assemble([], Framing.Wires(frames)) == Framing.Assembly(Framing.Bodies(frames), [])
    ensures ParsedAll(Framing.Bodies(frames)) == HeardAll(frames)
  {
    Framing.ProxyReadsBodies(frames);
  }

  lemma SameAfter(log: seq<Delivery>, a: seq<Delivery>, b: seq<Delivery>)
    ensures log + a == log + b <==> a == b
  {
    if log + a == log + b {
      assert a == (log + a)[|log|..] && b == (log + b)[|log|..];
    }
  }
}
