/** What the JSON server makes of the bytes of a socket, over whole runs: the packets are
    those cut from all that the socket has delivered, in whatever mode it was, and each of
    them is answered once, on this socket, in order. */
module RegistryAnswers {
  import opened Bytes
  import opened Messages
  import opened AddressAllocator
  import opened Registry
  import opened RegistryInvariant
  import opened RegistryRuns
  import opened RegistryCalls
  import opened RegistryWrites
  import opened RegistryBuffers
  import JsonStream
  import Framing
  import SlipDataProcessor

  // ---------------------------------------------------------------- what a socket has said

  /** The packets a socket has said to the JSON server, and what is left to be cut. */
  datatype Talk = Talk(packets: seq<bytes>, buffer: bytes)

  /** Of some frames those for the JSON server, as they are parsed. */
  function ForJson(frames: seq<bytes>): seq<bytes> {
    if frames == [] then [] else
      var frame := SlipDataProcessor.Parsed(frames[|frames| - 1]);
      ForJson(frames[..|frames| - 1]) + if frame.socketAddress == JSON_ADDRESS then [frame.data] else []
  }

  /** One chunk more: a server's frames once SLIP is on, nothing from a client that is
      tunnelled, and else JSON texts, of which none is taken if too much is left over. */
  function Hear(t: Transport, talk: Talk, data: bytes): Talk {
    if t.kind == TypeClient then talk
    else if t.kind == TypeServer && t.slip then
      var s := Framing.Assemble(talk.buffer, data);
      Talk(talk.packets + ForJson(s.frames), s.buffer)
    else
      var s := JsonStream.Ingest(talk.buffer, data);
      Talk(talk.packets + if |s.buffer| > MAX_BUFFER then [] else s.Packets(), s.buffer)
  }

  /** Everything a socket has said since it opened. */
  function Said(read: bytes -> Request, es: seq<Event>, id: ClientId): Talk {
    if es == [] then Talk([], []) else
      var r, e := Run(read, es[..|es| - 1]), es[|es| - 1];
      if IsOpening(r, e) && e.id == id then Talk([], [])
      else if e.Data? && e.id == id && Listed(r, id) then Hear(r.transports[id], Said(read, es[..|es| - 1], id), e.data)
      else Said(read, es[..|es| - 1], id)
  }

  // ---------------------------------------------------------------- what it is answered

  function AnswersIn(box: seq<Message>): seq<Message> {
    if box == [] then [] else
      AnswersIn(box[..|box| - 1]) + if box[|box| - 1].IsAnswer() then [box[|box| - 1]] else []
  }

  function AnswersTo(r: State, id: ClientId): seq<Message> {
    AnswersIn(Outbox(r.log, id))
  }

  predicate IsAnswerTo(request: Request, m: Message) {
    && m.IsAnswer() && m.control.id == request.id
    && (request.Call? <==> m.control.Response?)
  }

  /** One answer for each packet, in order, each under the id that came with it. */
  predicate Answer(read: bytes -> Request, answers: seq<Message>, packets: seq<bytes>) {
    |answers| == |packets| && forall i :: 0 <= i < |packets| ==> IsAnswerTo(read(packets[i]), answers[i])
  }

  lemma AnswerAppends(read: bytes -> Request, xs: seq<Message>, ps: seq<bytes>, ys: seq<Message>, qs: seq<bytes>)
    requires Answer(read, xs, ps) && Answer(read, ys, qs)
    ensures Answer(read, xs + ys, ps + qs)
  {
  }

  /** From r to r' socket id is sent the answers to some packets, and no others. */
  ghost predicate Answered(read: bytes -> Request, r: State, r': State, id: ClientId, packets: seq<bytes>) {
    && AnswersTo(r, id) <= AnswersTo(r', id)
    && Answer(read, AnswersTo(r', id)[|AnswersTo(r, id)|..], packets)
  }

  lemma AnsweredChains(read: bytes -> Request, r: State, r1: State, r2: State, id: ClientId, ps: seq<bytes>,
                       qs: seq<bytes>)
    requires Answered(read, r, r1, id, ps) && Answered(read, r1, r2, id, qs)
    ensures Answered(read, r, r2, id, ps + qs)
  {
    var a, b, c := AnswersTo(r, id), AnswersTo(r1, id), AnswersTo(r2, id);
    AnswerAppends(read, b[|a|..], ps, c[|b|..], qs);
    assert c[|a|..] == b[|a|..] + c[|b|..];
  }

  lemma NoAnswer(read: bytes -> Request, r: State, r': State, id: ClientId)
    requires AnswersTo(r', id) == AnswersTo(r, id)
    ensures Answered(read, r, r', id, [])
  {
  }

  lemma AnswersByEntry(log: seq<Entry>, e: Entry, id: ClientId)
    requires e != Opened(id)
    ensures AnswersIn(Outbox(log + [e], id))
            == AnswersIn(Outbox(log, id)) + if e.Sent? && e.to == id && e.message.IsAnswer() then [e.message] else []
  {
    OutboxOneMore(log, e);
    if e.Sent? && e.to == id {
      assert (Outbox(log, id) + [e.message])[..|Outbox(log, id)|] == Outbox(log, id);
    }
  }

  /** A packet of socket k is answered on k. */
  lemma PacketIsAnswered(read: bytes -> Request, r: State, k: ClientId, packet: bytes, id: ClientId)
    ensures Answered(read, r, HandlePacket(read, r, k, packet), id, if k == id then [packet] else [])
  {
    match read(packet)
    case Unusable(n) =>
      var r1 := Send(r, k, ErrorResponse(n));
      LetterIsSent(r, k, ErrorResponse(n), id);
      AnswersByEntry(r1.log, Killed({k}), id);
      AnswerOfPacket(read, r, HandlePacket(read, r, k, packet), k, Letter(r, k, ErrorResponse(n)).message, packet, id);
    case Call(n, p) =>
      var (r1, reply) := Invoke(r, k, p);
      var r2 := Send(r1, k, Response(n, reply));
      CallAnswersNothing(r, k, p, id);
      LetterIsSent(r1, k, Response(n, reply), id);
      AfterResponseAnswersNothing(r2, k, id);
      var m := Letter(r1, k, Response(n, reply)).message;
      AnswerOfPacket(read, r, HandlePacket(read, r, k, packet), k, m, packet, id);
  }

  lemma LetterIsSent(r: State, k: ClientId, c: Control, id: ClientId)
    requires c.IsAnswer()
    ensures AnswersTo(Send(r, k, c), id) == AnswersTo(r, id) + if k == id then [Letter(r, k, c).message] else []
  {
    AnswersByEntry(r.log, Letter(r, k, c), id);
  }

  lemma AfterResponseAnswersNothing(r: State, k: ClientId, id: ClientId)
    ensures AnswersTo(AfterResponse(r, k), id) == AnswersTo(r, id)
  {
    AnswersByEntry(r.log, Killed({k}), id);
    AfterResponseTables(r, r, k);
    assert r.log + [] == r.log;
  }

  lemma AnswerOfPacket(read: bytes -> Request, r: State, r': State, k: ClientId, m: Message, packet: bytes,
                       id: ClientId)
    requires IsAnswerTo(read(packet), m)
    requires AnswersTo(r', id) == AnswersTo(r, id) + if k == id then [m] else []
    ensures Answered(read, r, r', id, if k == id then [packet] else [])
  {
  }

  lemma CallAnswersNothing(r: State, k: ClientId, p: Procedure, id: ClientId)
    ensures AnswersTo(Invoke(r, k, p).0, id) == AnswersTo(r, id)
  {
    InvokeWritesNoAnswer(r, k, p);
    InvokeOpensNothing(r, k, p);
    var log := Invoke(r, k, p).0.log;
    if log != r.log {
      AnswersByEntry(r.log, log[|r.log|], id);
    }
  }

  lemma InvokeOpensNothing(r: State, k: ClientId, p: Procedure)
    ensures Invoke(r, k, p).0.log != r.log ==> !Invoke(r, k, p).0.log[|r.log|].Opened?
  {
    InvokeWrites(r, k, p);
    InvokeWritesNoAnswer(r, k, p);
  }

  /** One frame of socket k: answered if it is for the JSON server. */
  lemma FrameIsAnswered(read: bytes -> Request, r: State, k: ClientId, raw: bytes, id: ClientId)
    ensures var frame := SlipDataProcessor.Parsed(raw);
            Answered(read, r, HandleFrame(read, r, k, raw), id,
                     if k == id && frame.socketAddress == JSON_ADDRESS then [frame.data] else [])
  {
    var frame := SlipDataProcessor.Parsed(raw);
    PacketIsAnswered(read, r, k, frame.data, id);
    var r' := RouteFrame(r, k, frame);
    if frame.socketAddress != JSON_ADDRESS && r'.log != r.log {
      AnswersByEntry(r.log, r'.log[|r.log|], id);
    }
  }

  /** An entry that is no answer and opens nothing. */
  predicate IsQuiet(e: Entry) {
    !e.Opened? && (e.Sent? ==> !e.message.IsAnswer())
  }

  lemma {:induction false} QuietAnswersNothing(log: seq<Entry>, more: seq<Entry>, id: ClientId)
    requires forall i :: 0 <= i < |more| ==> IsQuiet(more[i])
    ensures AnswersIn(Outbox(log + more, id)) == AnswersIn(Outbox(log, id))
  {
    if more == [] {
      assert log + more == log;
    } else {
      var init, e := more[..|more| - 1], more[|more| - 1];
      QuietAnswersNothing(log, init, id);
      AnswersByEntry(log + init, e, id);
      assert log + more == (log + init) + [e];
    }
  }

  lemma DisconnectAnswersNothing(r: State, gone: ClientId, id: ClientId)
    ensures AnswersTo(Disconnect(r, gone), id) == AnswersTo(r, id)
  {
    if Listed(r, gone) {
      var t, r1 := r.transports[gone], Unlist(r, gone);
      QuietAnswersNothing(r.log, [Closed(gone)], id);
      if t.kind == TypeServer && t.uuid in r.servers {
        QuietAnswersNothing(r1.log, DropServer(r1, t.uuid).log[|r1.log|..], id);
      } else if t.kind == TypeClient && t.uuid in r.clients {
        DropClientAnswersNothing(r1, t.uuid, id);
      }
    }
  }

  lemma DropClientAnswersNothing(r: State, c: Uuid, id: ClientId)
    requires c in r.clients
    ensures AnswersTo(DropClient(r, c), id) == AnswersTo(r, id)
  {
    var r' := DropClient(r, c);
    if r'.log != r.log {
      assert r'.log == r.log + [r'.log[|r.log|]];
      QuietAnswersNothing(r.log, [r'.log[|r.log|]], id);
    }
  }

  lemma {:induction false} DisconnectAllAnswersNothing(r: State, gone: seq<ClientId>, id: ClientId)
    ensures AnswersTo(DisconnectAll(r, gone), id) == AnswersTo(r, id)
  {
    if gone != [] {
      DisconnectAllAnswersNothing(r, gone[..|gone| - 1], id);
      DisconnectAnswersNothing(DisconnectAll(r, gone[..|gone| - 1]), gone[|gone| - 1], id);
    }
  }

  // ---------------------------------------------------------------- chunks

  function PacketsIn(items: seq<bytes>, slip: bool): seq<bytes> {
    if slip then ForJson(items) else items
  }

  lemma LastItem(items: seq<bytes>, slip: bool)
    requires items != []
    ensures PacketsIn(items, slip) == PacketsIn(items[..|items| - 1], slip) + PacketIn(items[|items| - 1], slip)
  {
  }

  function PacketIn(item: bytes, slip: bool): seq<bytes> {
    if !slip then [item] else
      var frame := SlipDataProcessor.Parsed(item);
      if frame.socketAddress == JSON_ADDRESS then [frame.data] else []
  }

  lemma ItemIsAnswered(read: bytes -> Request, r: State, k: ClientId, item: bytes, slip: bool, gone: seq<ClientId>,
                       id: ClientId)
    ensures Answered(read, r, HandleItem(read, r, k, item, slip, gone), id,
                     if k == id then PacketIn(item, slip) else [])
  {
    FrameIsAnswered(read, r, k, item, id);
    PacketIsAnswered(read, r, k, item, id);
    var r1 := if slip then HandleFrame(read, r, k, item) else HandlePacket(read, r, k, item);
    DisconnectAllAnswersNothing(r1, gone, id);
  }

  lemma {:induction false} ItemsAreAnswered(read: bytes -> Request, r: State, k: ClientId, items: seq<bytes>,
                                            slip: bool,
                                            hangups: seq<seq<ClientId>>, id: ClientId)
    ensures Answered(read, r, HandleItems(read, r, k, items, slip, hangups), id,
                     if k == id then PacketsIn(items, slip) else [])
  {
    if items == [] {
      NoAnswer(read, r, r, id);
    } else {
      var n := |items| - 1;
      var r1 := HandleItems(read, r, k, items[..n], slip, hangups);
      ItemsAreAnswered(read, r, k, items[..n], slip, hangups, id);
      ItemIsAnswered(read, r1, k, items[n], slip, Hangups(hangups, n), id);
      LastItem(items, slip);
      AnsweredChains(read, r, r1, HandleItems(read, r, k, items, slip, hangups), id,
                     if k == id then PacketsIn(items[..n], slip) else [],
                     if k == id then PacketIn(items[n], slip) else []);
    }
  }

  lemma JsonIsAnswered(read: bytes -> Request, r: State, k: ClientId, data: bytes, hangups: seq<seq<ClientId>>,
                       id: ClientId)
    requires k in r.transports && k in r.jsonClients
    ensures var s := JsonStream.Ingest(r.transports[k].buffer, data);
            Answered(read, r, ReceiveJson(read, r, k, data, hangups), id,
                     if k == id && |s.buffer| <= MAX_BUFFER then s.Packets() else [])
  {
    var s := JsonStream.Ingest(r.transports[k].buffer, data);
    var r1 := WithBuffer(r, k, s.buffer);
    ItemsAreAnswered(read, r1, k, s.Packets(), false, hangups, id);
    AnswersByEntry(r1.log, Killed({k}), id);
  }

  lemma SlipIsAnswered(read: bytes -> Request, r: State, k: ClientId, data: bytes, hangups: seq<seq<ClientId>>,
                       id: ClientId)
    requires k in r.transports
    ensures var s := Framing.Assemble(r.transports[k].buffer, data);
            Answered(read, r, ReceiveSlip(read, r, k, data, hangups), id, if k == id then ForJson(s.frames) else [])
  {
    var s := Framing.Assemble(r.transports[k].buffer, data);
    ItemsAreAnswered(read, WithBuffer(r, k, s.buffer), k, s.frames, true, hangups, id);
  }

  /** Whatever the mode of a socket, a chunk is answered as it is heard, and what is left of
      it stays in the buffer. */
  lemma ChunkIsAnswered(read: bytes -> Request, r: State, e: Event, packets: seq<bytes>)
    requires Tables(r) && e.Data? && Listed(r, e.id)
    ensures var t, r' := r.transports[e.id], Step(read, r, e);
            var heard := Hear(t, Talk(packets, t.buffer), e.data);
            && packets <= heard.packets && Answered(read, r, r', e.id, heard.packets[|packets|..])
            && e.id in r'.transports && r'.transports[e.id].buffer == heard.buffer
  {
    var id, t := e.id, r.transports[e.id];
    if t.kind == TypeClient {
      TunnelAnswersNothing(read, r, t.uuid, e.data, id);
    } else if t.kind == TypeServer && t.slip {
      var s := Framing.Assemble(t.buffer, e.data);
      SlipIsAnswered(read, r, id, e.data, e.hangups, id);
      ItemsKeepSocket(read, WithBuffer(r, id, s.buffer), id, s.frames, true, e.hangups, id);
    } else {
      var s := JsonStream.Ingest(t.buffer, e.data);
      JsonIsAnswered(read, r, id, e.data, e.hangups, id);
      ItemsKeepSocket(read, WithBuffer(r, id, s.buffer), id, s.Packets(), false, e.hangups, id);
    }
  }

  /** The packets a chunk completes have been answered, each once. */
  ghost predicate IsHeard(read: bytes -> Request, r: State, r': State, id: ClientId, data: bytes)
    requires Listed(r, id)
  {
    Answered(read, r, r', id, Hear(r.transports[id], Talk([], r.transports[id].buffer), data).packets)
  }

  lemma ChunkIsHeard(read: bytes -> Request, r: State, e: Event)
    requires Tables(r) && e.Data? && Listed(r, e.id)
    ensures IsHeard(read, r, Receive(read, r, e.id, e.data, e.hangups), e.id, e.data)
  {
    ChunkIsAnswered(read, r, e, []);
  }

  lemma TunnelAnswersNothing(read: bytes -> Request, r: State, c: Uuid, data: bytes, id: ClientId)
    ensures Answered(read, r, ReceiveTunnel(r, c, data), id, [])
    ensures ReceiveTunnel(r, c, data).transports == r.transports
  {
    var r' := ReceiveTunnel(r, c, data);
    if r'.log != r.log {
      AnswersByEntry(r.log, r'.log[|r.log|], id);
    }
  }

  /** Nothing else answers a socket or touches its buffer. */
  lemma OtherStepAnswersNothing(read: bytes -> Request, r: State, e: Event, id: ClientId)
    requires Tables(r) && !(e.Data? && e.id == id && Listed(r, id)) && !(IsOpening(r, e) && e.id == id)
    ensures Answered(read, r, Step(read, r, e), id, []) && KeepsSocket(r, Step(read, r, e), id)
  {
    match e
    case Connected(k, peer) => AnswersByEntry(r.log, if Listed(r, k) then Killed({k}) else Opened(k), id);
    case Disconnected(gone) =>
      DisconnectAnswersNothing(r, gone, id);
      DisconnectKeepsSocket(r, gone, id);
    case Data(k, data, hangups) => OtherChunkAnswersNothing(read, r, k, data, hangups, id);
    case Inactive(k) => AnswersByEntry(r.log, Killed({k}), id);
    case Tick => AnswersByEntry(r.log, Published(r.troughputCounter), id);
  }

  lemma OtherChunkAnswersNothing(read: bytes -> Request, r: State, k: ClientId, data: bytes,
                                 hangups: seq<seq<ClientId>>, id: ClientId)
    requires Tables(r) && !(k == id && Listed(r, id))
    ensures Answered(read, r, Receive(read, r, k, data, hangups), id, [])
    ensures KeepsSocket(r, Receive(read, r, k, data, hangups), id)
  {
    NoAnswer(read, r, r, id);
    if Listed(r, k) {
      if r.transports[k].kind == TypeClient {
        TunnelAnswersNothing(read, r, r.transports[k].uuid, data, id);
      } else if r.transports[k].kind == TypeServer && r.transports[k].slip {
        var s := Framing.Assemble(r.transports[k].buffer, data);
        SlipIsAnswered(read, r, k, data, hangups, id);
        ItemsKeepSocket(read, WithBuffer(r, k, s.buffer), k, s.frames, true, hangups, id);
      } else {
        var s := JsonStream.Ingest(r.transports[k].buffer, data);
        JsonIsAnswered(read, r, k, data, hangups, id);
        ItemsKeepSocket(read, WithBuffer(r, k, s.buffer), k, s.Packets(), false, hangups, id);
      }
    }
  }

  // ---------------------------------------------------------------- runs

  /** Over any run, crowded or not: the answers a socket has been sent since it opened are
      one for each packet it has said since then, in order, and under the packet's id; and
      what its chunks have left over is in its buffer. */
  lemma {:induction false} EverythingIsAnswered(read: bytes -> Request, es: seq<Event>, id: ClientId)
    ensures var r, talk := Run(read, es), Said(read, es, id);
            && Answer(read, AnswersTo(r, id), talk.packets)
            && (id in r.transports ==> r.transports[id].buffer == talk.buffer)
  {
    if es != [] {
      var init, e := es[..|es| - 1], es[|es| - 1];
      var r := Run(read, init);
      RunIsSound(read, init);
      EverythingIsAnswered(read, init, id);
      if IsOpening(r, e) && e.id == id {
        OutboxOneMore(r.log, Opened(id));
      } else if e.Data? && e.id == id && Listed(r, id) {
        var before := Said(read, init, id);
        ChunkIsAnswered(read, r, e, before.packets);
        assert Said(read, es, id) == Hear(r.transports[id], Talk(before.packets, r.transports[id].buffer), e.data);
        SoFar(read, r, Step(read, r, e), id, before.packets, Said(read, es, id).packets);
      } else {
        OtherStepAnswersNothing(read, r, e, id);
        assert Said(read, es, id) == Said(read, init, id);
        NothingNew(read, r, Step(read, r, e), id, Said(read, init, id).packets);
      }
    }
  }

  lemma NothingNew(read: bytes -> Request, r: State, r': State, id: ClientId, packets: seq<bytes>)
    requires Answer(read, AnswersTo(r, id), packets) && Answered(read, r, r', id, [])
    ensures Answer(read, AnswersTo(r', id), packets)
  {
    assert packets[|packets|..] == [];
    SoFar(read, r, r', id, packets, packets);
  }

  lemma SoFar(read: bytes -> Request, r: State, r': State, id: ClientId, before: seq<bytes>, packets: seq<bytes>)
    requires Answer(read, AnswersTo(r, id), before) && before <= packets
    requires Answered(read, r, r', id, packets[|before|..])
    ensures Answer(read, AnswersTo(r', id), packets)
  {
    var a, b := AnswersTo(r, id), AnswersTo(r', id);
    AnswerAppends(read, a, before, b[|a|..], packets[|before|..]);
    assert b == a + b[|a|..] && packets == before + packets[|before|..];
  }

  // ---------------------------------------------------------------- plain sockets, from the bytes

  /** The chunks a socket has delivered since it opened. */
  function Chunks(read: bytes -> Request, es: seq<Event>, id: ClientId): seq<bytes> {
    if es == [] then [] else
      var r, e := Run(read, es[..|es| - 1]), es[|es| - 1];
      if IsOpening(r, e) && e.id == id then []
      else Chunks(read, es[..|es| - 1], id) + if e.Data? && e.id == id && Listed(r, id) then [e.data] else []
  }

  /** Every chunk since then was heard as JSON in plain, and none left too much over. */
  predicate InPlain(read: bytes -> Request, es: seq<Event>, id: ClientId) {
    if es == [] then true else
      var init, e := es[..|es| - 1], es[|es| - 1];
      var r := Run(read, init);
      (IsOpening(r, e) && e.id == id)
      || (InPlain(read, init, id)
          && (e.Data? && e.id == id && Listed(r, id) ==>
                && r.transports[id].kind != TypeClient
                   && !(r.transports[id].kind == TypeServer && r.transports[id].slip)
                && |JsonStream.Ingest(Said(read, init, id).buffer, e.data).buffer| <= MAX_BUFFER))
  }

  /** On a socket that speaks JSON in plain the answers are those to the packets cut from all
      it has delivered, and the rest of it is in the buffer: no byte is lost but one newline
      per cut (JsonStream.FeedConserves). */
  lemma PlainSocketsAreHeardWhole(read: bytes -> Request, es: seq<Event>, id: ClientId)
    requires InPlain(read, es, id)
    ensures var r, fed := Run(read, es), JsonStream.Feed(Chunks(read, es, id));
            && Answer(read, AnswersTo(r, id), fed.packets)
            && (id in r.transports ==> r.transports[id].buffer == fed.buffer)
  {
    EverythingIsAnswered(read, es, id);
    PlainTalk(read, es, id);
  }

  lemma {:induction false} PlainTalk(read: bytes -> Request, es: seq<Event>, id: ClientId)
    requires InPlain(read, es, id)
    ensures var fed := JsonStream.Feed(Chunks(read, es, id)); Said(read, es, id) == Talk(fed.packets, fed.buffer)
  {
    if es != [] {
      var init, e := es[..|es| - 1], es[|es| - 1];
      var r := Run(read, init);
      if !(IsOpening(r, e) && e.id == id) {
        PlainTalk(read, init, id);
        var chunks := Chunks(read, init, id);
        if e.Data? && e.id == id && Listed(r, id) {
          assert (chunks + [e.data])[..|chunks|] == chunks;
        } else {
          assert chunks + [] == chunks;
        }
      }
    }
  }
}
