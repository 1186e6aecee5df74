/** The peer on the bytes of its server's socket: whatever the chunks, and whatever timers fire
    between them, the application is told what the messages tell that have arrived whole. */
module PeerStream {
  import opened Bytes
  import opened Sessions
  import opened Messages
  import opened SlipDataProcessor
  import JsonStream
  import Framing
  import Peers = SocketServer

  // ---------------------------------------------------------------- messages as frames

  /** What the proxy sends on a socket with SLIP on. */
  predicate IsFramed(m: Message) {
    m.Framed? || (m.Tunnel? && m.address != 0)
  }

  predicate AllFramed(ms: seq<Message>) {
    forall m :: m in ms ==> IsFramed(m)
  }

  function FrameOf(codec: Codec, m: Message): Frame
    requires IsFramed(m)
  {
    if m.Framed? then Frame(0, codec.encode(m.control)) else Frame(m.address, m.data)
  }

  function FramesOf(codec: Codec, ms: seq<Message>): (frames: seq<Frame>)
    requires AllFramed(ms)
    ensures |frames| == |ms|
    ensures forall i :: 0 <= i < |ms| ==> ms[i] in ms && frames[i] == FrameOf(codec, ms[i])
  {
    seq(|ms|, i requires 0 <= i < |ms| => assert ms[i] in ms; FrameOf(codec, ms[i]))
  }

  /** The bytes of messages written one after the other. */
  function WireOf(codec: Codec, ms: seq<Message>): bytes {
    if ms == [] then [] else WireOf(codec, ms[..|ms| - 1]) + MessageWire(codec, ms[|ms| - 1])
  }

  lemma {:induction false} WireIsFrames(codec: Codec, ms: seq<Message>)
    requires AllFramed(ms)
    ensures WireOf(codec, ms) == Framing.Wires(FramesOf(codec, ms))
  {
    if ms != [] {
      var n := |ms| - 1;
      FramesOneMore(codec, ms);
      WireIsFrames(codec, ms[..n]);
      WiresOneMore(FramesOf(codec, ms[..n]), FrameOf(codec, ms[n]));
    }
  }

  lemma FramesOneMore(codec: Codec, ms: seq<Message>)
    requires AllFramed(ms) && ms != []
    ensures var n := |ms| - 1;
            && AllFramed(ms[..n]) && IsFramed(ms[n])
            && FramesOf(codec, ms) == FramesOf(codec, ms[..n]) + [FrameOf(codec, ms[n])]
            && MessageWire(codec, ms[n]) == SlipDataProcessor.Wire(FrameOf(codec, ms[n]))
  {
    var n := |ms| - 1;
    assert ms[n] in ms && forall m :: m in ms[..n] ==> m in ms;
  }

  lemma WiresOneMore(frames: seq<Frame>, frame: Frame)
    ensures Framing.Wires(frames + [frame]) == Framing.Wires(frames) + SlipDataProcessor.Wire(frame)
  {
    assert (frames + [frame])[..|frames|] == frames;
    Framing.JoinOneMore(Framing.Bodies(frames), Escaped(Built(frame)));
    Associates(Framing.Wires(frames), Escaped(Built(frame)), [END]);
  }

  // ---------------------------------------------------------------- the peer on a stream

  /** Any chunking of a stream has the same effect as the stream in one piece. */
  lemma {:induction false} PeerIgnoresChunking(decode: Peers.Decoder, p: Peers.Peer, chunks: seq<bytes>)
    requires Peers.Inv(p.node) && p.node.running && EndFree(p.buffer)
    ensures Peers.Feed(decode, p, chunks) == AfterStream(decode, p.node, p.buffer + Concat(chunks))
  {
    if chunks == [] {
      Framing.SplitUnique([], p.buffer);
      assert Framing.Join([]) + p.buffer == p.buffer == p.buffer + [];
    } else {
      var init, data := chunks[..|chunks| - 1], chunks[|chunks| - 1];
      PeerIgnoresChunking(decode, p, init);
      Associates(p.buffer, Concat(init), data);
      OneMoreChunk(decode, p.node, p.buffer + Concat(init), data);
    }
  }

  /** What a running peer with an empty buffer makes of a stream in one piece. */
  function AfterStream(decode: Peers.Decoder, p: Peers.Node, stream: bytes): Peers.Peer {
    var cut := Framing.Split(stream);
    Peers.Peer(Peers.DispatchAll(decode, p, Framing.PeerFrames(cut.pieces)), cut.rest)
  }

  lemma OneMoreChunk(decode: Peers.Decoder, p: Peers.Node, stream: bytes, data: bytes)
    requires Peers.Inv(p) && p.running
    ensures Peers.OnDataAvailable(decode, AfterStream(decode, p, stream), data) == AfterStream(decode, p, stream + data)
  {
    var c := Framing.Split(stream);
    var d := Framing.Split(c.rest + data);
    var frames := Framing.PeerFrames(c.pieces);
    Peers.DispatchAllKeeps(decode, p, frames);
    Framing.SplitContinues(stream, data);
    Framing.PeerFramesAppend(c.pieces, d.pieces);
    DispatchChains(decode, p, frames, Framing.PeerFrames(d.pieces));
    var q := Peers.DispatchAll(decode, p, frames);
    assert q.(keepAliveArmed := true) == q;
  }

  lemma {:induction false} DispatchChains(decode: Peers.Decoder, p: Peers.Node, xs: seq<Frame>, ys: seq<Frame>)
    ensures Peers.DispatchAll(decode, p, xs + ys) == Peers.DispatchAll(decode, Peers.DispatchAll(decode, p, xs), ys)
  {
    if ys == [] {
      assert xs + ys == xs;
    } else {
      assert (xs + ys)[..|xs + ys| - 1] == xs + ys[..|ys| - 1];
      DispatchChains(decode, p, xs, ys[..|ys| - 1]);
    }
  }

  /** A stream that stops anywhere inside the wire of some frames is cut into those frames
      that have arrived whole. */
  lemma PrefixCut(pieces: seq<bytes>, stream: bytes) returns (j: nat)
    requires Framing.AllEndFree(pieces) && stream <= Framing.Join(pieces)
    ensures j <= |pieces| && Framing.Split(stream).pieces == pieces[..j]
    ensures Framing.Join(pieces[..j]) <= stream && Framing.Split(stream).rest == stream[|Framing.Join(pieces[..j])|..]
    ensures j < |pieces| ==> |stream| < |Framing.Join(pieces[..j + 1])|
  {
    var rest := Framing.Join(pieces)[|stream|..];
    Framing.SplitUnique(pieces, []);
    assert Framing.Join(pieces) + [] == Framing.Join(pieces) == stream + rest;
    Framing.SplitContinues(stream, rest);
    var cut := Framing.Split(stream);
    j := |cut.pieces|;
    assert pieces[..j] == cut.pieces;
    Framing.SplitJoins(stream);
    if j < |pieces| {
      NextPieceIsLonger(pieces, stream, cut.rest, rest, j);
    }
  }

  /** The unfinished piece is a proper part of the one it grows into. */
  lemma NextPieceIsLonger(pieces: seq<bytes>, stream: bytes, begun: bytes, rest: bytes, j: nat)
    requires j < |pieces| && Framing.Join(pieces) == stream + rest && stream == Framing.Join(pieces[..j]) + begun
    requires EndFree(begun)
    ensures |stream| < |Framing.Join(pieces[..j + 1])|
  {
    var before := Framing.Join(pieces[..j]);
    assert pieces == pieces[..j] + ([pieces[j]] + pieces[j + 1..]);
    Framing.JoinAppends(pieces[..j], [pieces[j]] + pieces[j + 1..]);
    Framing.JoinAppends([pieces[j]], pieces[j + 1..]);
    Framing.JoinOneMore([], pieces[j]);
    assert pieces[..j + 1] == pieces[..j] + [pieces[j]];
    Framing.JoinOneMore(pieces[..j], pieces[j]);
    assert [] + [pieces[j]] == [pieces[j]] && Framing.Join([pieces[j]]) == pieces[j] + [END];
    var tail := Framing.Join(pieces[j + 1..]);
    Associates(before, pieces[j] + [END], tail);
    Associates(before, begun, rest);
    SameAfter(before, pieces[j] + [END] + tail, begun + rest);
    FirstEnd(pieces[j], tail, begun, rest);
  }

  lemma SameAfter(before: bytes, a: bytes, b: bytes)
    requires before + a == before + b
    ensures a == b
  {
    assert a == (before + a)[|before|..] && b == (before + b)[|before|..];
  }

  /** Bytes without END cannot reach beyond the first END. */
  lemma FirstEnd(piece: bytes, tail: bytes, begun: bytes, rest: bytes)
    requires piece + [END] + tail == begun + rest && EndFree(begun)
    ensures |begun| <= |piece|
  {
    assert forall k :: 0 <= k < |begun| ==> (begun + rest)[k] != END;
    assert (piece + [END] + tail)[|piece|] == END;
  }

  // ---------------------------------------------------------------- the peer on messages

  /** A running peer between two messages. */
  ghost predicate Attentive(p: Peers.Node) {
    Peers.Inv(p) && Peers.Faithful(p) && p.running && p.client.Some? && p.client.value.buffer == []
  }

  predicate IsWaiting(p: Peers.Node) {
    p.client.Some? && p.client.value.pending.Some?
  }

  /** A control message under the id of the client library's requests: whatever it is, it
      takes the request that waits. */
  predicate TakesRequest(m: Message) {
    m.Framed? && m.control.id == 0
  }

  /** Whether a request still waits after some messages. */
  predicate StillWaits(waiting: bool, ms: seq<Message>) {
    waiting && forall i :: 0 <= i < |ms| ==> !TakesRequest(ms[i])
  }

  /** A notification that a waiting request would take for its answer. */
  predicate IsMistakable(m: Message) {
    TakesRequest(m) && !m.IsAnswer()
  }

  /** No notification meets a waiting request whose id it carries. */
  predicate InTime(waiting: bool, ms: seq<Message>) {
    forall i :: 0 <= i < |ms| && IsMistakable(ms[i]) ==> !StillWaits(waiting, ms[..i])
  }

  lemma InTimeOneMore(waiting: bool, ms: seq<Message>)
    requires ms != []
    ensures var n := |ms| - 1;
            && (InTime(waiting, ms) <==>
                  InTime(waiting, ms[..n]) && (IsMistakable(ms[n]) ==> !StillWaits(waiting, ms[..n])))
            && (StillWaits(waiting, ms) <==> StillWaits(waiting, ms[..n]) && !TakesRequest(ms[n]))
  {
    var n := |ms| - 1;
    assert forall i :: 0 <= i < n ==> ms[..n][i] == ms[i] && ms[..n][..i] == ms[..i];
  }

  ghost predicate Printable(codec: Codec, ms: seq<Message>) {
    forall m :: m in ms && m.Framed? ==> Prints(codec, m.control)
  }

  /** A control frame is one packet for the JSON client. */
  lemma ControlIsOnePacket(codec: Codec, p: Peers.Node, c: Control)
    requires p.client.Some? && p.client.value.buffer == [] && Prints(codec, c)
    ensures Peers.ReceiveJson(codec.decode, p, codec.encode(c)) == Peers.OnPacket(codec.decode, p, codec.encode(c))
  {
    var text := codec.encode(c);
    JsonStream.WholePacket(text);
    assert p.(client := Some(p.client.value.(buffer := []))) == p;
    var packets: seq<bytes> := [text];
    assert packets[..0] == [] && packets[0] == text;
    assert Peers.OnPackets(codec.decode, p, packets[..0]) == p;
  }

  /** One message: what becomes of a waiting request, and that the application is told at
      most what the message tells; less if it is mistaken for an answer. */
  lemma PeerTakesMessage(codec: Codec, p: Peers.Node, m: Message)
    requires Attentive(p) && IsFramed(m) && Printable(codec, [m])
    ensures var q := Peers.Dispatch(codec.decode, p, FrameOf(codec, m));
            Attentive(q) && (IsWaiting(q) <==> IsWaiting(p) && !TakesRequest(m)) && TellsNoMore(p, m, q)
  {
    assert m in [m];
    StoryOfOne(m);
    Peers.DispatchKeeps(codec.decode, p, FrameOf(codec, m));
    if m.Framed? {
      ControlIsOnePacket(codec, p, m.control);
      TakesControl(codec, p, m.control);
    }
  }

  predicate TellsNoMore(p: Peers.Node, m: Message, q: Peers.Node) {
    && |q.signals| <= |p.signals| + |Story([m])|
    && (IsWaiting(p) && IsMistakable(m) ==> |q.signals| < |p.signals| + |Story([m])|)
  }

  lemma TakesControl(codec: Codec, p: Peers.Node, c: Control)
    requires Peers.Inv(p) && p.running && p.client.Some? && p.client.value.buffer == [] && Prints(codec, c)
    ensures var q := Peers.OnPacket(codec.decode, p, codec.encode(c));
            && q.client.Some? && q.client.value.buffer == []
            && (IsWaiting(q) <==> IsWaiting(p) && c.id != 0) && TellsNoMore(p, Framed(c), q)
  {
    StoryOfOne(Framed(c));
  }

  /** One message that is not mistaken: the application is told what it tells. */
  lemma PeerHearsMessage(codec: Codec, p: Peers.Node, m: Message)
    requires Attentive(p) && IsFramed(m) && Printable(codec, [m])
    requires IsMistakable(m) ==> !IsWaiting(p)
    requires Track(p.signals + Story([m])).Some?
    ensures Peers.Dispatch(codec.decode, p, FrameOf(codec, m)).signals == p.signals + Story([m])
  {
    assert m in [m];
    if m.Framed? {
      ControlIsOnePacket(codec, p, m.control);
      HearsControl(codec, p, m.control);
    } else {
      HearsChunk(codec, p, m.address, m.data);
    }
  }

  lemma HearsChunk(codec: Codec, p: Peers.Node, a: u16, data: bytes)
    requires Attentive(p) && a != 0 && Track(p.signals + Story([Tunnel(a, data)])).Some?
    ensures Peers.Dispatch(codec.decode, p, Frame(a, data)).signals == p.signals + Story([Tunnel(a, data)])
  {
    StoryOfOne(Tunnel(a, data));
    TrackOneMore(p.signals, Chunk(a, data));
    assert a in Track(p.signals).value.Keys;
  }

  lemma StoryOfOne(m: Message)
    ensures Story([m]) == match Told(m) case None => [] case Some(e) => [e]
  {
    var one: seq<Message> := [m];
    assert one[..0] == [];
  }

  lemma HearsControl(codec: Codec, p: Peers.Node, c: Control)
    requires Attentive(p) && Prints(codec, c)
    requires !c.IsAnswer() ==> p.client.value.pending.None? || c.id != 0
    requires Track(p.signals + Story([Framed(c)])).Some?
    ensures var q := Peers.OnPacket(codec.decode, p, codec.encode(c));
            q.signals == p.signals + Story([Framed(c)])
  {
    StoryOfOne(Framed(c));
    if c.ClientDisconnected? {
      TrackOneMore(p.signals, End({c.address}));
      assert Track(p.signals).Some? && {c.address} <= Track(p.signals).value.Keys;
      assert c.address in p.sockets;
    } else if c.IsAnswer() {
      assert p.signals + [] == p.signals;
    }
  }

  /** All that should be told has been told, or else less than that. */
  predicate Hears(signals: seq<SessionEvent>, told: seq<SessionEvent>, all: bool) {
    if all then signals == told else |signals| < |told|
  }

  /** How some messages leave a peer. */
  ghost predicate Left(q: Peers.Node, waiting: bool, told: seq<SessionEvent>, all: bool) {
    Attentive(q) && (IsWaiting(q) <==> waiting) && Hears(q.signals, told, all)
  }

  /** Any messages, for a peer that has heard all it should have so far, or less: exactly
      when a request waits afterwards, and that the application is told the whole story
      exactly when no notification meets a waiting request. */
  lemma {:induction false} PeerHearsAll(codec: Codec, p: Peers.Node, ms: seq<Message>, told: seq<SessionEvent>,
                                        all: bool)
    requires Attentive(p) && AllFramed(ms) && Printable(codec, ms)
    requires Hears(p.signals, told, all) && Track(told + Story(ms)).Some?
    ensures Left(Peers.DispatchAll(codec.decode, p, FramesOf(codec, ms)),
                 StillWaits(IsWaiting(p), ms), told + Story(ms), all && InTime(IsWaiting(p), ms))
  {
    if ms == [] {
      assert told + Story(ms) == told;
    } else {
      var n := |ms| - 1;
      var init, m := ms[..n], ms[n];
      assert ms == init + [m];
      FramesOneMore(codec, ms);
      AllButTheLast(codec, told, init, m);
      PeerHearsAll(codec, p, init, told, all);
      var q := Peers.DispatchAll(codec.decode, p, FramesOf(codec, init));
      Peers.DispatchOneMore(codec.decode, p, FramesOf(codec, init), FrameOf(codec, m));
      HearsTheLast(codec, q, IsWaiting(p), init, m, told, all);
    }
  }

  /** One more message for a peer that has heard all of the story so far, or less. */
  lemma HearsTheLast(codec: Codec, q: Peers.Node, waiting: bool, init: seq<Message>, m: Message,
                     told: seq<SessionEvent>, all: bool)
    requires Left(q, StillWaits(waiting, init), told + Story(init), all && InTime(waiting, init))
    requires IsFramed(m) && Printable(codec, init + [m]) && Track(told + Story(init + [m])).Some?
    ensures Left(Peers.Dispatch(codec.decode, q, FrameOf(codec, m)),
                 StillWaits(waiting, init + [m]), told + Story(init + [m]), all && InTime(waiting, init + [m]))
  {
    AllButTheLast(codec, told, init, m);
    assert (init + [m])[..|init|] == init;
    InTimeOneMore(waiting, init + [m]);
    PeerTakesMessage(codec, q, m);
    if all && InTime(waiting, init + [m]) {
      PeerHearsMessage(codec, q, m);
    }
  }

  lemma AllButTheLast(codec: Codec, signals: seq<SessionEvent>, init: seq<Message>, m: Message)
    requires Printable(codec, init + [m]) && Track(signals + Story(init + [m])).Some?
    ensures Printable(codec, init) && Track(signals + Story(init)).Some?
    ensures Printable(codec, [m]) && signals + Story(init + [m]) == (signals + Story(init)) + Story([m])
  {
    var ms := init + [m];
    assert m in ms && forall x :: x in init ==> x in ms;
    StoryAppends(init, [m]);
    assert ms[..|init|] == init;
    StoryPrefix(signals, ms, |init|);
  }

  lemma StoryPrefix(signals: seq<SessionEvent>, ms: seq<Message>, j: nat)
    requires j <= |ms| && Track(signals + Story(ms)).Some?
    ensures Track(signals + Story(ms[..j])).Some?
  {
    assert ms == ms[..j] + ms[j..];
    StoryAppends(ms[..j], ms[j..]);
    var n := |signals + Story(ms[..j])|;
    assert (signals + Story(ms))[..n] == signals + Story(ms[..j]);
    TrackPrefix(signals + Story(ms), n);
  }

  // ---------------------------------------------------------------- notifications and pings

  /** While a request waits, a notification under its id is taken for its answer. */
  lemma NotificationIsTaken(codec: Codec, p: Peers.Node, c: Control)
    requires Attentive(p) && Prints(codec, c) && !c.IsAnswer() && p.client.value.pending.Some? && c.id == 0
    ensures Peers.Dispatch(codec.decode, p, FrameOf(codec, Framed(c))).signals == p.signals
  {
    ControlIsOnePacket(codec, p, c);
  }

  /** When a notification is heard: exactly when no request waits or it does not carry the
      id of the client library's requests. Else it is taken for the answer and lost. */
  lemma NotificationIsHeardExactly(codec: Codec, p: Peers.Node, c: Control)
    requires Attentive(p) && Prints(codec, c) && !c.IsAnswer()
    requires Track(p.signals + Story([Framed(c)])).Some?
    ensures Peers.Dispatch(codec.decode, p, FrameOf(codec, Framed(c))).signals == p.signals + Story([Framed(c)])
            <==> p.client.value.pending.None? || c.id != 0
  {
    if p.client.value.pending.None? || c.id != 0 {
      ControlIsOnePacket(codec, p, c);
      HearsControl(codec, p, c);
    } else {
      NotificationIsTaken(codec, p, c);
      StoryOfOne(Framed(c));
      assert |p.signals + Story([Framed(c)])| == |p.signals| + 1;
    }
  }

  // ---------------------------------------------------------------- the peer on events

  /** What may happen to a running peer besides data: its timers fire, the application asks
      for a disconnect or stops the server, whose socket closes in its own time. */
  predicate IsMild(e: Peers.Event) {
    e.DataAvailable? || e.KeepAliveTimeout? || e.RequestDisconnect? || e.ReconnectTimeout? || e.Stop?
  }

  predicate AllMild(es: seq<Peers.Event>) {
    forall i :: 0 <= i < |es| ==> IsMild(es[i])
  }

  function After(decode: Peers.Decoder, p: Peers.Peer, es: seq<Peers.Event>): Peers.Peer {
    if es == [] then p else Peers.Step(decode, After(decode, p, es[..|es| - 1]), es[|es| - 1])
  }

  /** The bytes an event brings. */
  function Brought(e: Peers.Event): bytes {
    if e.DataAvailable? then e.data else []
  }

  /** The bytes that arrive in some events. */
  function Received(es: seq<Peers.Event>): bytes {
    if es == [] then [] else Received(es[..|es| - 1]) + Brought(es[|es| - 1])
  }

  /** Of the wire of some messages exactly the first j have arrived whole. */
  predicate Arrived(codec: Codec, ms: seq<Message>, stream: bytes, j: nat) {
    j <= |ms| && WireOf(codec, ms[..j]) <= stream && (j < |ms| ==> |stream| < |WireOf(codec, ms[..j + 1])|)
  }

  lemma {:induction false} WireGrows(codec: Codec, ms: seq<Message>, i: nat, j: nat)
    requires i <= j <= |ms|
    ensures |WireOf(codec, ms[..i])| <= |WireOf(codec, ms[..j])|
    decreases j
  {
    if i < j {
      assert ms[..j][..j - 1] == ms[..j - 1];
      WireGrows(codec, ms, i, j - 1);
    }
  }

  /** There is only one such j. */
  lemma ArrivedOnce(codec: Codec, ms: seq<Message>, stream: bytes, i: nat, j: nat)
    requires Arrived(codec, ms, stream, i) && Arrived(codec, ms, stream, j)
    ensures i == j
  {
    if i < j {
      WireGrows(codec, ms, i + 1, j);
    } else if j < i {
      WireGrows(codec, ms, j + 1, i);
    }
  }

  /** How many messages have arrived whole with a stream. */
  function Whole(codec: Codec, ms: seq<Message>, stream: bytes): (j: nat)
    ensures j <= |ms|
  {
    if ms == [] || |WireOf(codec, ms)| <= |stream| then |ms| else Whole(codec, ms[..|ms| - 1], stream)
  }

  lemma {:induction false} WholeIsArrived(codec: Codec, ms: seq<Message>, stream: bytes, j: nat)
    requires Arrived(codec, ms, stream, j)
    ensures Whole(codec, ms, stream) == j
  {
    var n := |ms| - 1;
    if j <= n {
      WireGrows(codec, ms, j + 1, |ms|);
      assert ms[..|ms|] == ms && ms[..n][..j] == ms[..j];
      if j < n {
        assert ms[..n][..j + 1] == ms[..j + 1];
      }
      WholeIsArrived(codec, ms[..n], stream, j);
    } else {
      assert ms[..|ms|] == ms;
    }
  }

  lemma {:induction false} WholeGrows(codec: Codec, ms: seq<Message>, stream: bytes, data: bytes)
    ensures Whole(codec, ms, stream) <= Whole(codec, ms, stream + data)
  {
    if ms != [] && |WireOf(codec, ms)| > |stream + data| {
      WholeGrows(codec, ms[..|ms| - 1], stream, data);
    }
  }

  // ---------------------------------------------------------------- requests that wait

  /** The messages that event e completes, after some events. */
  function Completed(codec: Codec, ms: seq<Message>, es: seq<Peers.Event>, e: Peers.Event): seq<Message> {
    WholeGrows(codec, ms, Received(es), Brought(e));
    ms[Whole(codec, ms, Received(es))..Whole(codec, ms, Received(es) + Brought(e))]
  }

  /** Whether a request waits after some events: it does from a ping or a request of the
      application on, until a control message comes under its id. */
  predicate Asking(codec: Codec, waiting: bool, ms: seq<Message>, es: seq<Peers.Event>) {
    if es == [] then waiting else
      var init, e := es[..|es| - 1], es[|es| - 1];
      e.KeepAliveTimeout? || e.RequestDisconnect?
      || StillWaits(Asking(codec, waiting, ms, init), Completed(codec, ms, init, e))
  }

  /** Whatever event completes a notification, no request waits then whose id it carries. */
  predicate Unmet(codec: Codec, waiting: bool, ms: seq<Message>, es: seq<Peers.Event>) {
    forall n :: 0 <= n < |es| ==> MeetsNone(codec, waiting, ms, es, n)
  }

  predicate MeetsNone(codec: Codec, waiting: bool, ms: seq<Message>, es: seq<Peers.Event>, n: nat)
    requires n < |es|
  {
    InTime(Asking(codec, waiting, ms, es[..n]), Completed(codec, ms, es[..n], es[n]))
  }

  lemma UnmetOneMore(codec: Codec, waiting: bool, ms: seq<Message>, es: seq<Peers.Event>)
    requires es != []
    ensures var n := |es| - 1;
            Unmet(codec, waiting, ms, es) <==>
              Unmet(codec, waiting, ms, es[..n]) && MeetsNone(codec, waiting, ms, es, n)
  {
    var n := |es| - 1;
    forall i: nat | i < n ensures MeetsNone(codec, waiting, ms, es[..n], i) <==> MeetsNone(codec, waiting, ms, es, i) {
      assert es[..n][..i] == es[..i];
    }
  }

  /** No notification carries the id of the client library's requests. */
  predicate NoneIsZero(ms: seq<Message>) {
    forall m :: m in ms && m.Framed? && !m.IsAnswer() ==> m.control.id != 0
  }

  /** No request is ever sent. */
  predicate NoneIsSent(es: seq<Peers.Event>) {
    forall i :: 0 <= i < |es| ==> !es[i].KeepAliveTimeout? && !es[i].RequestDisconnect?
  }

  lemma {:induction false} NobodyAsks(codec: Codec, ms: seq<Message>, es: seq<Peers.Event>)
    requires NoneIsSent(es)
    ensures !Asking(codec, false, ms, es)
  {
    if es != [] {
      NobodyAsks(codec, ms, es[..|es| - 1]);
    }
  }

  /** Two of the ways in which notifications and requests keep apart: none has the id, or
      nothing is asked. */
  lemma ApartIsUnmet(codec: Codec, waiting: bool, ms: seq<Message>, es: seq<Peers.Event>)
    requires NoneIsZero(ms) || (!waiting && NoneIsSent(es))
    ensures Unmet(codec, waiting, ms, es)
  {
    forall n | 0 <= n < |es| ensures MeetsNone(codec, waiting, ms, es, n) {
      if NoneIsZero(ms) {
        assert forall m :: m in Completed(codec, ms, es[..n], es[n]) ==> m in ms;
      } else {
        NobodyAsks(codec, ms, es[..n]);
      }
    }
  }

  // ---------------------------------------------------------------- chunk by chunk

  function BodiesOf(codec: Codec, ms: seq<Message>): seq<bytes>
    requires AllFramed(ms)
  {
    Framing.Bodies(FramesOf(codec, ms))
  }

  lemma FramedPrefix(codec: Codec, ms: seq<Message>, j: nat)
    requires AllFramed(ms) && j <= |ms|
    ensures AllFramed(ms[..j]) && WireOf(codec, ms[..j]) == Framing.Join(BodiesOf(codec, ms)[..j])
  {
    assert forall m :: m in ms[..j] ==> m in ms;
    assert FramesOf(codec, ms[..j]) == FramesOf(codec, ms)[..j];
    WireIsFrames(codec, ms[..j]);
    BodiesSlice(FramesOf(codec, ms), 0, j);
    assert FramesOf(codec, ms)[0..j] == FramesOf(codec, ms)[..j]
        && BodiesOf(codec, ms)[0..j] == BodiesOf(codec, ms)[..j];
  }

  /** How a peer's cut of part of the wire looks. */
  lemma CutOf(codec: Codec, ms: seq<Message>, stream: bytes) returns (j: nat)
    requires AllFramed(ms) && stream <= WireOf(codec, ms)
    ensures Arrived(codec, ms, stream, j)
    ensures Framing.Split(stream) == Framing.Cut(BodiesOf(codec, ms)[..j], stream[|WireOf(codec, ms[..j])|..])
  {
    var bodies := BodiesOf(codec, ms);
    WireIsFrames(codec, ms);
    Framing.BodiesEndFree(FramesOf(codec, ms));
    j := PrefixCut(bodies, stream);
    FramedPrefix(codec, ms, j);
    if j < |ms| {
      FramedPrefix(codec, ms, j + 1);
    }
  }

  lemma FramedSlice(codec: Codec, ms: seq<Message>, i: nat, j: nat)
    requires AllFramed(ms) && i <= j <= |ms|
    ensures AllFramed(ms[i..j]) && FramesOf(codec, ms[i..j]) == FramesOf(codec, ms)[i..j]
    ensures BodiesOf(codec, ms[i..j]) == BodiesOf(codec, ms)[i..j]
  {
    assert forall m :: m in ms[i..j] ==> m in ms;
    assert FramesOf(codec, ms[i..j]) == FramesOf(codec, ms)[i..j];
    BodiesSlice(FramesOf(codec, ms), i, j);
  }

  lemma BodiesSlice(frames: seq<Frame>, i: nat, j: nat)
    requires i <= j <= |frames|
    ensures Framing.Bodies(frames[i..j]) == Framing.Bodies(frames)[i..j]
  {
    Framing.BodiesAre(frames);
    Framing.BodiesAre(frames[i..j]);
    var bodies, slice := Framing.Bodies(frames), Framing.Bodies(frames[i..j]);
    forall k | 0 <= k < j - i ensures slice[k] == bodies[i..j][k] {
      assert frames[i..j][k] == frames[i + k] && bodies[i..j][k] == bodies[i + k];
    }
  }

  /** The pieces a chunk completes. */
  lemma NextPieces(stream: bytes, data: bytes, bodies: seq<bytes>, i: nat, j: nat)
    requires i <= |bodies| && j <= |bodies|
    requires Framing.Split(stream).pieces == bodies[..i] && Framing.Split(stream + data).pieces == bodies[..j]
    ensures i <= j
    ensures Framing.Split(Framing.Split(stream).rest + data)
            == Framing.Cut(bodies[i..j], Framing.Split(stream + data).rest)
  {
    Framing.SplitContinues(stream, data);
    var d := Framing.Split(Framing.Split(stream).rest + data);
    assert bodies[..j] == bodies[..i] + d.pieces;
    assert d.pieces == bodies[..j][i..];
  }

  /** The frames that a chunk completes. */
  lemma NextFrames(codec: Codec, ms: seq<Message>, stream: bytes, data: bytes, i: nat) returns (j: nat)
    requires AllFramed(ms) && stream + data <= WireOf(codec, ms) && i <= |ms|
    requires Framing.Split(stream).pieces == BodiesOf(codec, ms)[..i]
    ensures i <= j && Arrived(codec, ms, stream + data, j) && AllFramed(ms[i..j])
    ensures Framing.Split(stream + data).pieces == BodiesOf(codec, ms)[..j]
    ensures var cut := Framing.Split(Framing.Split(stream).rest + data);
            Framing.PeerFrames(cut.pieces) == FramesOf(codec, ms[i..j]) && cut.rest == Framing.Split(stream + data).rest
  {
    j := CutOf(codec, ms, stream + data);
    NextPieces(stream, data, BodiesOf(codec, ms), i, j);
    FramedSlice(codec, ms, i, j);
    Framing.PeerReadsBodies(FramesOf(codec, ms[i..j]));
  }

  /** Where a peer stands that has received part of the wire of some messages. */
  ghost predicate Follows(codec: Codec, p: Peers.Node, ms: seq<Message>, es: seq<Peers.Event>, q: Peers.Peer) {
    var j := Whole(codec, ms, Received(es));
    && AllFramed(ms) && Arrived(codec, ms, Received(es), j) && Attentive(q.node)
    && (IsWaiting(q.node) <==> Asking(codec, IsWaiting(p), ms, es))
    && Hears(q.node.signals, p.signals + Story(ms[..j]), Unmet(codec, IsWaiting(p), ms, es))
    && Framing.Split(Received(es)) == Framing.Cut(BodiesOf(codec, ms)[..j], q.buffer)
  }

  lemma ChunkIsHeard(codec: Codec, p: Peers.Node, ms: seq<Message>, es: seq<Peers.Event>, q: Peers.Peer, e: Peers.Event)
    requires Follows(codec, p, ms, es, q) && e.DataAvailable? && Received(es) + e.data <= WireOf(codec, ms)
    requires Printable(codec, ms) && Track(p.signals + Story(ms)).Some?
    ensures Follows(codec, p, ms, es + [e], Peers.OnDataAvailable(codec.decode, q, e.data))
  {
    var i := Whole(codec, ms, Received(es));
    var j := NextFrames(codec, ms, Received(es), e.data, i);
    WholeIsArrived(codec, ms, Received(es) + e.data, j);
    NewStory(p.signals, ms, i, j);
    var all := Unmet(codec, IsWaiting(p), ms, es);
    SliceIsHeard(codec, q.node, ms, i, j, p.signals + Story(ms[..i]), all);
    ChunkIsDispatched(codec, q, e.data, ms[i..j]);
    OneMoreEvent(codec, IsWaiting(p), ms, es, e);
  }

  lemma OneMoreEvent(codec: Codec, waiting: bool, ms: seq<Message>, es: seq<Peers.Event>, e: Peers.Event)
    ensures Received(es + [e]) == Received(es) + Brought(e)
    ensures Unmet(codec, waiting, ms, es + [e]) <==>
              Unmet(codec, waiting, ms, es) && InTime(Asking(codec, waiting, ms, es), Completed(codec, ms, es, e))
    ensures Asking(codec, waiting, ms, es + [e]) <==>
              e.KeepAliveTimeout? || e.RequestDisconnect?
              || StillWaits(Asking(codec, waiting, ms, es), Completed(codec, ms, es, e))
  {
    assert (es + [e])[..|es|] == es;
    UnmetOneMore(codec, waiting, ms, es + [e]);
  }

  lemma SliceIsHeard(codec: Codec, q: Peers.Node, ms: seq<Message>, i: nat, j: nat, told: seq<SessionEvent>, all: bool)
    requires i <= j <= |ms| && Attentive(q) && AllFramed(ms[i..j]) && Printable(codec, ms)
    requires Hears(q.signals, told, all) && Track(told + Story(ms[i..j])).Some?
    ensures Left(Peers.DispatchAll(codec.decode, q, FramesOf(codec, ms[i..j])),
                 StillWaits(IsWaiting(q), ms[i..j]), told + Story(ms[i..j]), all && InTime(IsWaiting(q), ms[i..j]))
  {
    assert forall m :: m in ms[i..j] ==> m in ms;
    PeerHearsAll(codec, q, ms[i..j], told, all);
  }

  lemma ChunkIsDispatched(codec: Codec, q: Peers.Peer, data: bytes, ms: seq<Message>)
    requires Attentive(q.node) && AllFramed(ms)
    requires Framing.PeerFrames(Framing.Split(q.buffer + data).pieces) == FramesOf(codec, ms)
    ensures Peers.OnDataAvailable(codec.decode, q, data)
            == Peers.Peer(Peers.DispatchAll(codec.decode, q.node, FramesOf(codec, ms)),
                          Framing.Split(q.buffer + data).rest)
  {
    assert q.node.(keepAliveArmed := true) == q.node;
  }

  lemma NewStory(signals: seq<SessionEvent>, ms: seq<Message>, i: nat, j: nat)
    requires i <= j <= |ms| && Track(signals + Story(ms)).Some?
    ensures signals + Story(ms[..j]) == (signals + Story(ms[..i])) + Story(ms[i..j])
    ensures Track(signals + Story(ms[..j])).Some?
  {
    assert ms[..j] == ms[..i] + ms[i..j];
    StoryAppends(ms[..i], ms[i..j]);
    StoryPrefix(signals, ms, j);
  }

  /** Timers and requests leave what has been heard alone. */
  lemma MildEventIsSilent(codec: Codec, p: Peers.Node, ms: seq<Message>, es: seq<Peers.Event>, q: Peers.Peer,
                          e: Peers.Event)
    requires Follows(codec, p, ms, es, q) && IsMild(e) && !e.DataAvailable?
    ensures Follows(codec, p, ms, es + [e], Peers.Step(codec.decode, q, e))
  {
    MildStep(codec, q, e);
    OneMoreEvent(codec, IsWaiting(p), ms, es, e);
    assert Received(es) + [] == Received(es);
    assert Completed(codec, ms, es, e) == [];
  }

  lemma MildStep(codec: Codec, q: Peers.Peer, e: Peers.Event)
    requires Attentive(q.node) && IsMild(e) && !e.DataAvailable?
    ensures var q' := Peers.Step(codec.decode, q, e);
            && Attentive(q'.node) && q'.node.signals == q.node.signals && q'.buffer == q.buffer
            && (IsWaiting(q'.node) <==> IsWaiting(q.node) || e.KeepAliveTimeout? || e.RequestDisconnect?)
  {
    Peers.StepKeeps(codec.decode, q, e);
  }

  /** Mirror, at every moment: whatever part of the wire has arrived, in whatever chunks and
      with whatever timers and requests between them, the application has been told exactly
      the story of the messages that have arrived whole, and the sockets are the sessions
      open at the end of that story, if and only if no notification under the id of the
      client library's requests has met one that waited. Else it has been told less. */
  lemma PeerMirrorsEveryPrefix(codec: Codec, p: Peers.Peer, ms: seq<Message>, es: seq<Peers.Event>)
    requires Attentive(p.node) && p.buffer == [] && AllFramed(ms) && Printable(codec, ms)
    requires Track(p.node.signals + Story(ms)).Some? && AllMild(es) && Received(es) <= WireOf(codec, ms)
    ensures var q, j := After(codec.decode, p, es), Whole(codec, ms, Received(es));
            var unmet := Unmet(codec, IsWaiting(p.node), ms, es);
            && Arrived(codec, ms, Received(es), j) && q.buffer == Received(es)[|WireOf(codec, ms[..j])|..]
            && Attentive(q.node) && Hears(q.node.signals, p.node.signals + Story(ms[..j]), unmet)
            && (unmet ==> Track(q.node.signals).Some? && Peers.Mirrors(q.node.sockets, Track(q.node.signals).value))
  {
    PeerFollows(codec, p, ms, es);
    StoryPrefix(p.node.signals, ms, Whole(codec, ms, Received(es)));
    var i := CutOf(codec, ms, Received(es));
    ArrivedOnce(codec, ms, Received(es), i, Whole(codec, ms, Received(es)));
  }

  lemma {:induction false} PeerFollows(codec: Codec, p: Peers.Peer, ms: seq<Message>, es: seq<Peers.Event>)
    requires Attentive(p.node) && p.buffer == [] && AllFramed(ms) && Printable(codec, ms)
    requires Track(p.node.signals + Story(ms)).Some? && AllMild(es) && Received(es) <= WireOf(codec, ms)
    ensures Follows(codec, p.node, ms, es, After(codec.decode, p, es))
    decreases |es|
  {
    if es == [] {
      var j := CutOf(codec, ms, []);
      assert p.node.signals + [] == p.node.signals;
      NothingArrived(codec, ms, j);
      WholeIsArrived(codec, ms, [], j);
    } else {
      var n := |es| - 1;
      assert IsMild(es[n]) && AllMild(es[..n]) && es == es[..n] + [es[n]];
      assert Received(es[..n]) <= Received(es);
      PeerFollows(codec, p, ms, es[..n]);
      NextEvent(codec, p.node, ms, es[..n], After(codec.decode, p, es[..n]), es[n]);
    }
  }

  lemma NextEvent(codec: Codec, p: Peers.Node, ms: seq<Message>, es: seq<Peers.Event>, q: Peers.Peer, e: Peers.Event)
    requires Follows(codec, p, ms, es, q) && IsMild(e) && Received(es) + Brought(e) <= WireOf(codec, ms)
    requires Printable(codec, ms) && Track(p.signals + Story(ms)).Some?
    ensures Follows(codec, p, ms, es + [e], Peers.Step(codec.decode, q, e))
  {
    if e.DataAvailable? {
      ChunkIsHeard(codec, p, ms, es, q, e);
      DataStep(codec, q, e);
    } else {
      MildEventIsSilent(codec, p, ms, es, q, e);
    }
  }

  lemma DataStep(codec: Codec, q: Peers.Peer, e: Peers.Event)
    requires e.DataAvailable?
    ensures Peers.Step(codec.decode, q, e) == Peers.OnDataAvailable(codec.decode, q, e.data)
  {
  }

  lemma WireIsThere(codec: Codec, ms: seq<Message>)
    requires AllFramed(ms) && ms != []
    ensures WireOf(codec, ms) != []
  {
    FramesOneMore(codec, ms);
  }

  lemma NothingArrived(codec: Codec, ms: seq<Message>, j: nat)
    requires AllFramed(ms) && Arrived(codec, ms, [], j)
    ensures j == 0
  {
    if j > 0 {
      assert forall m :: m in ms[..j] ==> m in ms;
      WireIsThere(codec, ms[..j]);
    }
  }
}
