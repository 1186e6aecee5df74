/** What a client hears over a whole run: the payloads of the frames its server wrote with its
    address, as the proxy parses them, while it was attached. */
module RegistryForwards {
  import opened Bytes
  import opened Messages
  import opened AddressAllocator
  import opened Registry
  import opened RegistryInvariant
  import opened RegistryRuns
  import opened RegistryWrites
  import Framing
  import SlipDataProcessor

  /** Socket k is that of the client attached to server u under address a. */
  predicate IsBehind(r: State, k: ClientId, u: Uuid, a: u16) {
    Listed(r, k) && r.transports[k].kind == TypeClient && IsAttachedTo(r, r.transports[k].uuid, u, a)
  }

  /** What a frame from the server's socket `id` holds for socket k. */
  function FrameFor(r: State, id: ClientId, raw: bytes, k: ClientId): seq<bytes> {
    var frame := SlipDataProcessor.Parsed(raw);
    if frame.socketAddress != JSON_ADDRESS && id in r.transports
        && IsBehind(r, k, r.transports[id].uuid, frame.socketAddress)
    then [frame.data] else []
  }

  /** What the frames of a chunk hold for socket k, each in the state in which it is handled. */
  function FramesFor(read: bytes -> Request, r: State, id: ClientId, items: seq<bytes>, hangups: seq<seq<ClientId>>,
                     k: ClientId): seq<bytes> {
    if items == [] then [] else
      var n := |items| - 1;
      FramesFor(read, r, id, items[..n], hangups, k)
      + FrameFor(HandleItems(read, r, id, items[..n], true, hangups), id, items[n], k)
  }

  function StepFor(read: bytes -> Request, r: State, e: Event, k: ClientId): seq<bytes> {
    if e.Data? && Listed(r, e.id) && r.transports[e.id].kind == TypeServer && r.transports[e.id].slip then
      var s := Framing.Assemble(r.transports[e.id].buffer, e.data);
      FramesFor(read, WithBuffer(r, e.id, s.buffer), e.id, s.frames, e.hangups, k)
    else []
  }

  /** What servers have written for socket k since it opened. */
  function WrittenFor(read: bytes -> Request, es: seq<Event>, k: ClientId): seq<bytes> {
    if es == [] then [] else
      var r, e := Run(read, es[..|es| - 1]), es[|es| - 1];
      if IsOpening(r, e) && e.id == k then []
      else WrittenFor(read, es[..|es| - 1], k) + StepFor(read, r, e, k)
  }

  function ForwardedTo(r: State, k: ClientId): seq<bytes> {
    Forwards(Outbox(r.log, k))
  }

  /** The one socket behind an address. */
  lemma BehindExactly(r: State, k: ClientId, u: Uuid, a: u16)
    requires Tables(r) && Links(r) && AllSettled(r)
    ensures IsBehind(r, k, u, a) <==>
              u in r.servers && a in r.servers[u].byAddress && ClientTransport(r, r.servers[u].byAddress[a]) == k
  {
    if IsBehind(r, k, u, a) {
      assert IsHeld(r, k) && IsLinked(r, r.transports[k].uuid) && IsSettled(r, r.transports[k].uuid);
    }
    if u in r.servers && a in r.servers[u].byAddress {
      var c := r.servers[u].byAddress[a];
      assert IsIndexed(r, u, a) && HoldsTransport(r, r.clients[c].transport, TypeClient, c);
    }
  }

  lemma FrameForwards(read: bytes -> Request, r: State, id: ClientId, raw: bytes, k: ClientId)
    requires Tables(r) && Links(r) && AllSettled(r)
    ensures ForwardedTo(HandleFrame(read, r, id, raw), k) == ForwardedTo(r, k) + FrameFor(r, id, raw, k)
  {
    var frame := SlipDataProcessor.Parsed(raw);
    if frame.socketAddress == JSON_ADDRESS {
      HandlePacketWrites(read, r, id, frame.data);
      NothingForwarded(r.log, HandlePacket(read, r, id, frame.data).log, k);
    } else if id in r.transports {
      var u := r.transports[id].uuid;
      BehindExactly(r, k, u, frame.socketAddress);
      if u in r.servers && frame.socketAddress in r.servers[u].byAddress {
        ForwardsByEntry(r.log, Sent(ClientTransport(r, r.servers[u].byAddress[frame.socketAddress]),
                                    Forward(frame.data)), k);
      }
    }
  }

  lemma {:induction false} FramesForward(read: bytes -> Request, r: State, id: ClientId, items: seq<bytes>,
                                         hangups: seq<seq<ClientId>>, k: ClientId)
    requires Inv(r) && Roomy(ItemsJoins(read, r, id, items, true, hangups))
    ensures ForwardedTo(HandleItems(read, r, id, items, true, hangups), k)
            == ForwardedTo(r, k) + FramesFor(read, r, id, items, hangups, k)
  {
    if items != [] {
      var n := |items| - 1;
      var r1 := HandleItems(read, r, id, items[..n], true, hangups);
      RoomyParts(ItemsJoins(read, r, id, items[..n], true, hangups), FrameJoins(read, r1, id, items[n]));
      HandleItemsKeeps(read, r, id, items[..n], true, hangups);
      FramesForward(read, r, id, items[..n], hangups, k);
      FrameThenHangups(read, r1, id, items[n], Hangups(hangups, n), k);
    }
  }

  lemma FrameThenHangups(read: bytes -> Request, r: State, id: ClientId, raw: bytes, gone: seq<ClientId>, k: ClientId)
    requires Inv(r)
    ensures ForwardedTo(DisconnectAll(HandleFrame(read, r, id, raw), gone), k)
            == ForwardedTo(r, k) + FrameFor(r, id, raw, k)
  {
    var r1 := HandleFrame(read, r, id, raw);
    FrameForwards(read, r, id, raw, k);
    DisconnectAllWrites(r1, gone);
    NothingForwarded(r1.log, DisconnectAll(r1, gone).log, k);
  }

  lemma SlipForwards(read: bytes -> Request, r: State, id: ClientId, data: bytes, hangups: seq<seq<ClientId>>,
                     k: ClientId)
    requires Inv(r) && id in r.transports && Roomy(SlipJoins(read, r, id, data, hangups))
    ensures var s := Framing.Assemble(r.transports[id].buffer, data);
            ForwardedTo(ReceiveSlip(read, r, id, data, hangups), k)
            == ForwardedTo(r, k) + FramesFor(read, WithBuffer(r, id, s.buffer), id, s.frames, hangups, k)
  {
    var s := Framing.Assemble(r.transports[id].buffer, data);
    RetouchKeeps(r, id, r.transports[id].(buffer := s.buffer));
    FramesForward(read, WithBuffer(r, id, s.buffer), id, s.frames, hangups, k);
  }

  /** Anything but a chunk in SLIP mode forwards nothing. */
  lemma OtherStepForwardsNothing(read: bytes -> Request, r: State, e: Event, k: ClientId)
    requires !(IsOpening(r, e) && e.id == k)
    requires !(e.Data? && Listed(r, e.id) && r.transports[e.id].kind == TypeServer && r.transports[e.id].slip)
    ensures ForwardedTo(Step(read, r, e), k) == ForwardedTo(r, k)
  {
    var r' := Step(read, r, e);
    match e
    case Connected(id, peer) =>
      ForwardsByEntry(r.log, if Listed(r, id) then Killed({id}) else Opened(id), k);
    case Disconnected(id) =>
      DisconnectWrites(r, id);
      NothingForwarded(r.log, r'.log, k);
    case Data(id, data, hangups) =>
      if Listed(r, id) {
        if r.transports[id].kind == TypeClient {
          ChunkForwardsNothing(r, r.transports[id].uuid, data, k);
        } else {
          ReceiveJsonWrites(read, r, id, data, hangups);
          NothingForwarded(r.log, r'.log, k);
        }
      }
    case Inactive(id) => ForwardsByEntry(r.log, Killed({id}), k);
    case Tick => ForwardsByEntry(r.log, Published(r.troughputCounter), k);
  }

  lemma ChunkForwardsNothing(r: State, c: Uuid, data: bytes, k: ClientId)
    ensures ForwardedTo(ReceiveTunnel(r, c, data), k) == ForwardedTo(r, k)
  {
    if c in r.clients && r.clients[c].server.Some? && r.clients[c].server.value in r.servers {
      ForwardsByEntry(r.log, Sent(r.servers[r.clients[c].server.value].transport,
                                  Tunnel(r.clients[c].address, data)), k);
    }
  }

  lemma StepForwards(read: bytes -> Request, r: State, e: Event, k: ClientId)
    requires Inv(r) && Roomy(StepJoins(read, r, e)) && !(IsOpening(r, e) && e.id == k)
    ensures ForwardedTo(Step(read, r, e), k) == ForwardedTo(r, k) + StepFor(read, r, e, k)
  {
    if e.Data? && Listed(r, e.id) && r.transports[e.id].kind == TypeServer && r.transports[e.id].slip {
      SlipForwards(read, r, e.id, e.data, e.hangups, k);
    } else {
      OtherStepForwardsNothing(read, r, e, k);
    }
  }

  /** Demultiplexing at the proxy, over whole runs: what has been forwarded to a socket since
      it opened is exactly what the frames of its server held for it, in order. */
  lemma {:induction false} ClientsHearWhatWasWritten(read: bytes -> Request, es: seq<Event>, k: ClientId)
    requires Admissible(read, es)
    ensures ForwardedTo(Run(read, es), k) == WrittenFor(read, es, k)
  {
    if es != [] {
      var init, e := es[..|es| - 1], es[|es| - 1];
      var r := Run(read, init);
      AdmissibleButLast(read, es);
      RunKeeps(read, init);
      if IsOpening(r, e) && e.id == k {
        OutboxOneMore(r.log, Opened(k));
      } else {
        ClientsHearWhatWasWritten(read, init, k);
        StepForwards(read, r, e, k);
      }
    }
  }
}
