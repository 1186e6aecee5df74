/** What the steps of the proxy may write: every step but the opening of a socket and a
    client's chunk only appends answers, notifications, kills and, for the frames of a
    server, forwarded payloads. */
module RegistryWrites {
  import opened Bytes
  import opened Sessions
  import opened Messages
  import opened Registry
  import opened RegistryInvariant
  import JsonStream
  import Framing
  import SlipDataProcessor

  predicate IsOrdinary(e: Entry, forwards: bool) {
    !e.Opened? && (e.Sent? ==> !e.message.Tunnel? && (e.message.Forward? ==> forwards))
  }

  ghost predicate Writes(log: seq<Entry>, log': seq<Entry>, forwards: bool) {
    log <= log' && forall n :: |log| <= n < |log'| ==> IsOrdinary(log'[n], forwards)
  }

  lemma WritesChain(log: seq<Entry>, log1: seq<Entry>, log2: seq<Entry>, forwards: bool)
    requires Writes(log, log1, forwards) && Writes(log1, log2, forwards)
    ensures Writes(log, log2, forwards)
  {
    forall n | |log| <= n < |log2| ensures IsOrdinary(log2[n], forwards) {
      assert n < |log1| ==> log2[n] == log1[n];
    }
  }

  lemma InvokeWrites(r: State, id: ClientId, p: Procedure)
    ensures Writes(r.log, Invoke(r, id, p).0.log, false)
  {
  }

  lemma HandlePacketWrites(read: bytes -> Request, r: State, id: ClientId, packet: bytes)
    ensures Writes(r.log, HandlePacket(read, r, id, packet).log, false)
  {
    match read(packet)
    case Unusable(n) =>
    case Call(n, p) =>
      InvokeWrites(r, id, p);
      var r1 := Invoke(r, id, p).0;
      WritesChain(r.log, r1.log, HandlePacket(read, r, id, packet).log, false);
  }

  lemma HandleFrameWrites(read: bytes -> Request, r: State, id: ClientId, raw: bytes)
    ensures Writes(r.log, HandleFrame(read, r, id, raw).log, true)
  {
    HandlePacketWrites(read, r, id, SlipDataProcessor.Parsed(raw).data);
  }

  lemma DisconnectWrites(r: State, gone: ClientId)
    ensures Writes(r.log, Disconnect(r, gone).log, false)
  {
    if Listed(r, gone) {
      var t, r1 := r.transports[gone], Unlist(r, gone);
      assert r1.log == r.log + [Closed(gone)];
      if t.kind == TypeServer && t.uuid in r.servers {
        assert Disconnect(r, gone) == DropServer(r1, t.uuid);
      } else if t.kind == TypeClient && t.uuid in r.clients {
        assert Disconnect(r, gone) == DropClient(r1, t.uuid);
      }
    }
  }

  lemma {:induction false} DisconnectAllWrites(r: State, ids: seq<ClientId>)
    ensures Writes(r.log, DisconnectAll(r, ids).log, false)
  {
    if ids != [] {
      var r1 := DisconnectAll(r, ids[..|ids| - 1]);
      DisconnectAllWrites(r, ids[..|ids| - 1]);
      DisconnectWrites(r1, ids[|ids| - 1]);
      WritesChain(r.log, r1.log, DisconnectAll(r, ids).log, false);
    }
  }

  lemma {:induction false} HandleItemsWrites(read: bytes -> Request, r: State, id: ClientId, items: seq<bytes>,
                                             slip: bool, hangups: seq<seq<ClientId>>)
    ensures Writes(r.log, HandleItems(read, r, id, items, slip, hangups).log, slip)
  {
    if items != [] {
      var n := |items| - 1;
      var r1 := HandleItems(read, r, id, items[..n], slip, hangups);
      var r2 := if slip then HandleFrame(read, r1, id, items[n]) else HandlePacket(read, r1, id, items[n]);
      HandleItemsWrites(read, r, id, items[..n], slip, hangups);
      HandleFrameWrites(read, r1, id, items[n]);
      HandlePacketWrites(read, r1, id, items[n]);
      WritesChain(r.log, r1.log, r2.log, slip);
      DisconnectAllWrites(r2, Hangups(hangups, n));
      WritesChain(r.log, r2.log, DisconnectAll(r2, Hangups(hangups, n)).log, slip);
    }
  }

  lemma ReceiveJsonWrites(read: bytes -> Request, r: State, id: ClientId, data: bytes, hangups: seq<seq<ClientId>>)
    requires id in r.transports
    ensures Writes(r.log, ReceiveJson(read, r, id, data, hangups).log, false)
  {
    var s := JsonStream.Ingest(r.transports[id].buffer, data);
    HandleItemsWrites(read, WithBuffer(r, id, s.buffer), id, s.Packets(), false, hangups);
  }

  lemma ReceiveSlipWrites(read: bytes -> Request, r: State, id: ClientId, data: bytes, hangups: seq<seq<ClientId>>)
    requires id in r.transports
    ensures Writes(r.log, ReceiveSlip(read, r, id, data, hangups).log, true)
  {
    var s := Framing.Assemble(r.transports[id].buffer, data);
    HandleItemsWrites(read, WithBuffer(r, id, s.buffer), id, s.frames, true, hangups);
  }

  /** The chunk of a client that is attached. */
  predicate IsTunnelled(r: State, e: Event) {
    && e.Data? && Listed(r, e.id) && r.transports[e.id].kind == TypeClient && r.transports[e.id].uuid in r.clients
    && var c := r.clients[r.transports[e.id].uuid]; c.server.Some? && c.server.value in r.servers
  }

  /** A new connection under a free id. */
  predicate IsOpening(r: State, e: Event) {
    e.Connected? && !Listed(r, e.id)
  }

  lemma StepWrites(read: bytes -> Request, r: State, e: Event)
    requires !IsTunnelled(r, e) && !IsOpening(r, e)
    ensures Writes(r.log, Step(read, r, e).log, true)
  {
    match e
    case Data(id, data, hangups) =>
      if Listed(r, id) {
        ReceiveJsonWrites(read, r, id, data, hangups);
        ReceiveSlipWrites(read, r, id, data, hangups);
      }
    case Disconnected(id) => DisconnectWrites(r, id);
    case _ =>
  }

  // ---------------------------------------------------------------- what a socket sees of it

  /** What a socket has been told about sessions. */
  function StoryOf(r: State, id: ClientId): seq<SessionEvent> {
    Story(Outbox(r.log, id))
  }

  /** A story goes on without a chunk. */
  ghost predicate GoesOn(story: seq<SessionEvent>, story': seq<SessionEvent>) {
    story <= story' && forall n :: |story| <= n < |story'| ==> !story'[n].Chunk?
  }

  lemma {:induction false} StoryGoesOn(log: seq<Entry>, log': seq<Entry>, id: ClientId, forwards: bool)
    requires Writes(log, log', forwards)
    ensures GoesOn(Story(Outbox(log, id)), Story(Outbox(log', id)))
    decreases |log'|
  {
    if |log'| == |log| {
      assert log' == log;
    } else {
      var n := |log'| - 1;
      StoryGoesOn(log, log'[..n], id, forwards);
      StoryByEntry(log'[..n], log'[n], id);
      assert IsOrdinary(log'[n], forwards) && log'[..n] + [log'[n]] == log';
    }
  }

  lemma StoryByEntry(log: seq<Entry>, e: Entry, id: ClientId)
    requires e != Opened(id)
    ensures Story(Outbox(log + [e], id)) ==
            Story(Outbox(log, id)) +
            if e.Sent? && e.to == id && Told(e.message).Some? then [Told(e.message).value] else []
  {
    OutboxOneMore(log, e);
    if e.Sent? && e.to == id {
      StoryOneMore(Outbox(log, id), e.message);
    }
  }

  /** The payloads forwarded to a socket. */
  function Forwards(box: seq<Message>): seq<bytes> {
    if box == [] then [] else
      Forwards(box[..|box| - 1]) + if box[|box| - 1].Forward? then [box[|box| - 1].data] else []
  }

  lemma ForwardsByEntry(log: seq<Entry>, e: Entry, k: ClientId)
    requires e != Opened(k)
    ensures Forwards(Outbox(log + [e], k)) ==
            Forwards(Outbox(log, k)) + if e.Sent? && e.to == k && e.message.Forward? then [e.message.data] else []
  {
    OutboxOneMore(log, e);
    if e.Sent? && e.to == k {
      assert (Outbox(log, k) + [e.message])[..|Outbox(log, k)|] == Outbox(log, k);
    }
  }

  lemma {:induction false} NothingForwarded(log: seq<Entry>, log': seq<Entry>, k: ClientId)
    requires Writes(log, log', false)
    ensures Forwards(Outbox(log', k)) == Forwards(Outbox(log, k))
    decreases |log'|
  {
    if |log'| == |log| {
      assert log' == log;
    } else {
      var n := |log'| - 1;
      NothingForwarded(log, log'[..n], k);
      ForwardsByEntry(log'[..n], log'[n], k);
      assert IsOrdinary(log'[n], false) && log'[..n] + [log'[n]] == log';
    }
  }
}
