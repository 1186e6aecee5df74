/** Cutting a byte stream into SLIP frames: the reference cut, the peer's reassembler
    (libnymea-remoteproxyclient/tunnelproxy/tunnelproxysocketserver.cpp) and the proxy's
    (libnymea-remoteproxy/tunnelproxy/tunnelproxyclient.cpp). */
module Framing {
  import opened Bytes
  import opened SlipDataProcessor

  // ---------------------------------------------------------------- the reference cut

  /** The END-terminated pieces of a stream and what follows the last END. */
  datatype Cut = Cut(pieces: seq<bytes>, rest: bytes)

  function Split(stream: bytes): Cut {
    if stream == [] then Cut([], []) else
      var c, b := Split(stream[..|stream| - 1]), stream[|stream| - 1];
      if b == END then Cut(c.pieces + [c.rest], []) else Cut(c.pieces, c.rest + [b])
  }

  function Join(pieces: seq<bytes>): bytes {
    if pieces == [] then [] else Join(pieces[..|pieces| - 1]) + pieces[|pieces| - 1] + [END]
  }

  predicate AllEndFree(pieces: seq<bytes>) {
    forall p :: p in pieces ==> EndFree(p)
  }

  lemma SplitOneMore(stream: bytes, b: byte)
    ensures var c := Split(stream);
            Split(stream + [b]) == if b == END then Cut(c.pieces + [c.rest], []) else Cut(c.pieces, c.rest + [b])
  {
    assert (stream + [b])[..|stream|] == stream;
  }

  lemma JoinOneMore(pieces: seq<bytes>, p: bytes)
    ensures Join(pieces + [p]) == Join(pieces) + p + [END]
  {
    assert (pieces + [p])[..|pieces|] == pieces;
  }

  lemma {:induction false} JoinAppends(xs: seq<bytes>, ys: seq<bytes>)
    ensures Join(xs + ys) == Join(xs) + Join(ys)
  {
    if ys == [] {
      assert xs + ys == xs;
    } else {
      var init, last := ys[..|ys| - 1], ys[|ys| - 1];
      assert xs + ys == (xs + init) + [last];
      JoinOneMore(xs + init, last);
      JoinAppends(xs, init);
    }
  }

  /** The cut loses nothing and leaves no END inside a piece ... */
  lemma {:induction false} SplitJoins(stream: bytes)
    ensures Join(Split(stream).pieces) + Split(stream).rest == stream
    ensures AllEndFree(Split(stream).pieces) && EndFree(Split(stream).rest)
  {
    if stream != [] {
      var init, b := stream[..|stream| - 1], stream[|stream| - 1];
      SplitJoins(init);
      assert stream == init + [b];
      JoinOneMore(Split(init).pieces, Split(init).rest);
    }
  }

  /** ... and is the only one with these two properties. */
  lemma {:induction false} SplitUnique(pieces: seq<bytes>, rest: bytes)
    requires AllEndFree(pieces) && EndFree(rest)
    ensures Split(Join(pieces) + rest) == Cut(pieces, rest)
    decreases |pieces|, |rest|
  {
    if rest != [] {
      var init, b := rest[..|rest| - 1], rest[|rest| - 1];
      SplitUnique(pieces, init);
      LastByte(Join(pieces), rest);
      SplitOneMore(Join(pieces) + init, b);
    } else if pieces != [] {
      var init, p := pieces[..|pieces| - 1], pieces[|pieces| - 1];
      assert p in pieces && forall q :: q in init ==> q in pieces;
      SplitUnique(init, p);
      SplitOneMore(Join(init) + p, END);
      assert Join(pieces) + rest == Join(init) + p + [END];
      assert init + [p] == pieces;
    } else {
      assert Join(pieces) + rest == [];
    }
  }

  /** Cutting can be resumed from the unfinished piece alone. */
  lemma SplitContinues(a: bytes, b: bytes)
    ensures var c, d := Split(a), Split(Split(a).rest + b);
            Split(a + b) == Cut(c.pieces + d.pieces, d.rest)
  {
    var c, d := Split(a), Split(Split(a).rest + b);
    SplitJoins(a);
    SplitJoins(c.rest + b);
    JoinAppends(c.pieces, d.pieces);
    SplitUnique(c.pieces + d.pieces, d.rest);
    Regroup(Join(c.pieces), c.rest, b, Join(d.pieces), d.rest);
  }

  lemma Regroup(jc: bytes, rc: bytes, b: bytes, jd: bytes, rd: bytes)
    requires rc + b == jd + rd
    ensures (jc + rc) + b == (jc + jd) + rd
  {
    assert (jc + rc) + b == jc + (rc + b);
    assert (jc + jd) + rd == jc + (jd + rd);
  }

  // ---------------------------------------------------------------- the peer

  /** What the peer dispatches: every piece that decodes, unescaped and parsed. */
  function PeerFrames(pieces: seq<bytes>): seq<Frame> {
    if pieces == [] then [] else
      PeerFrames(pieces[..|pieces| - 1]) +
      match Deserialized(pieces[|pieces| - 1])
      case None => []
      case Some(body) => [Parsed(body)]
  }

  lemma {:induction false} PeerFramesAppend(xs: seq<bytes>, ys: seq<bytes>)
    ensures PeerFrames(xs + ys) == PeerFrames(xs) + PeerFrames(ys)
  {
    if ys == [] {
      assert xs + ys == xs;
    } else {
      assert (xs + ys)[..|xs + ys| - 1] == xs + ys[..|ys| - 1];
      PeerFramesAppend(xs, ys[..|ys| - 1]);
    }
  }

  /** The escaped bodies of frames, one piece each. */
  function Bodies(frames: seq<Frame>): (bodies: seq<bytes>)
    ensures |bodies| == |frames|
  {
    if frames == [] then [] else
      Bodies(frames[..|frames| - 1]) + [Escaped(Built(frames[|frames| - 1]))]
  }

  /** Frames written one after the other. */
  function Wires(frames: seq<Frame>): bytes {
    Join(Bodies(frames))
  }

  lemma {:induction false} BodiesAre(frames: seq<Frame>)
    ensures forall i :: 0 <= i < |frames| ==> Bodies(frames)[i] == Escaped(Built(frames[i]))
  {
    if frames != [] {
      BodiesAre(frames[..|frames| - 1]);
    }
  }

  lemma BodiesEndFree(frames: seq<Frame>)
    ensures AllEndFree(Bodies(frames))
  {
    BodiesAre(frames);
    forall p | p in Bodies(frames) ensures EndFree(p) {
      var i :| 0 <= i < |frames| && p == Bodies(frames)[i];
      EncodingShape(Built(frames[i]));
    }
  }

  lemma PeerFramesOneMore(pieces: seq<bytes>, frame: Frame)
    ensures PeerFrames(pieces + [Escaped(Built(frame))]) == PeerFrames(pieces) + [frame]
  {
    var piece := Escaped(Built(frame));
    FrameRoundTrip(frame);
    ParseUndoesBuild(frame);
    assert (pieces + [piece])[..|pieces|] == pieces;
  }

  lemma {:induction false} PeerReadsBodies(frames: seq<Frame>)
    ensures PeerFrames(Bodies(frames)) == frames
  {
    if frames != [] {
      var init, f := frames[..|frames| - 1], frames[|frames| - 1];
      assert frames == init + [f];
      PeerReadsBodies(init);
      PeerFramesOneMore(Bodies(init), f);
    }
  }

  /** After any garbage and one END, every frame that follows is recovered, unchanged and
      in order, and the buffer is empty again. */
  lemma PeerResynchronises(garbage: bytes, frames: seq<Frame>)
    ensures var before := Split(garbage + [END]);
            var all := Split(garbage + [END] + Wires(frames));
            PeerFrames(all.pieces) == PeerFrames(before.pieces) + frames && all.rest == []
  {
    SplitOneMore(garbage, END);
    BodiesEndFree(frames);
    SplitUnique(Bodies(frames), []);
    assert [] + Wires(frames) == Wires(frames) == Wires(frames) + [];
    SplitContinues(garbage + [END], Wires(frames));
    PeerFramesAppend(Split(garbage + [END]).pieces, Bodies(frames));
    PeerReadsBodies(frames);
  }

  // ---------------------------------------------------------------- the proxy

  /** The proxy's reassembler hands on the buffer still escaped, and keeps it when it does
      not decode. */
  datatype Assembly = Assembly(frames: seq<bytes>, buffer: bytes)

  function AssembleByte(s: Assembly, b: byte): Assembly {
    if b != END then s.(buffer := s.buffer + [b])
    else if Deserialized(s.buffer) == None then s
    else Assembly(s.frames + [s.buffer], [])
  }

  function Assemble(buffer: bytes, data: bytes): Assembly {
    if data == [] then Assembly([], buffer)
    else AssembleByte(Assemble(buffer, data[..|data| - 1]), data[|data| - 1])
  }

  lemma {:induction false} AssembleContinues(buffer: bytes, x: bytes, y: bytes)
    ensures var s, t := Assemble(buffer, x), Assemble(Assemble(buffer, x).buffer, y);
            Assemble(buffer, x + y) == Assembly(s.frames + t.frames, t.buffer)
  {
    if y == [] {
      assert x + y == x;
    } else {
      var init, b := y[..|y| - 1], y[|y| - 1];
      AssembleContinues(buffer, x, init);
      assert x + y == (x + init) + [b];
      AssembleOneMore(buffer, x + init, b);
      AssembleOnto(Assemble(buffer, x).frames, Assemble(Assemble(buffer, x).buffer, init), b);
    }
  }

  lemma AssembleOneMore(buffer: bytes, data: bytes, b: byte)
    ensures Assemble(buffer, data + [b]) == AssembleByte(Assemble(buffer, data), b)
  {
    assert (data + [b])[..|data|] == data;
  }

  lemma AssembleOnto(frames: seq<bytes>, t: Assembly, b: byte)
    ensures AssembleByte(Assembly(frames + t.frames, t.buffer), b)
            == Assembly(frames + AssembleByte(t, b).frames, AssembleByte(t, b).buffer)
  {
    assert (frames + t.frames) + [t.buffer] == frames + (t.frames + [t.buffer]);
  }

  lemma {:induction false} AssembleKeepsEndFree(buffer: bytes, data: bytes)
    requires EndFree(buffer)
    ensures EndFree(Assemble(buffer, data).buffer)
  {
    if data != [] {
      AssembleKeepsEndFree(buffer, data[..|data| - 1]);
    }
  }

  lemma {:induction false} AssembleEndFree(buffer: bytes, data: bytes)
    requires EndFree(data)
    ensures Assemble(buffer, data) == Assembly([], buffer + data)
  {
    if data == [] {
      assert buffer + data == buffer;
    } else {
      AssembleEndFree(buffer, data[..|data| - 1]);
      assert (buffer + data[..|data| - 1]) + [data[|data| - 1]] == buffer + data;
    }
  }

  /** One bad escape silences the connection for good: the buffer is never cleared again
      and no later frame is handed on. */
  lemma {:induction false} ProxyNeverRecovers(buffer: bytes, data: bytes)
    requires EndFree(buffer) && HasBadEscape(buffer)
    ensures Assemble(buffer, data).frames == []
    ensures HasBadEscape(Assemble(buffer, data).buffer) && EndFree(Assemble(buffer, data).buffer)
  {
    if data != [] {
      var init := data[..|data| - 1];
      ProxyNeverRecovers(buffer, init);
      var s := Assemble(buffer, init);
      DecodeFailsExactly(s.buffer);
      var i :| BadEscapeAt(s.buffer, i);
      assert BadEscapeAt(s.buffer + [data[|data| - 1]], i);
    }
  }

  function NonEmpty(pieces: seq<bytes>): seq<bytes> {
    if pieces == [] then [] else
      var init, p := NonEmpty(pieces[..|pieces| - 1]), pieces[|pieces| - 1];
      if p == [] then init else init + [p]
  }

  predicate AllAccepted(pieces: seq<bytes>) {
    forall p :: p in pieces && p != [] ==> Deserialized(p) != None
  }

  lemma {:induction false} AssembleStep(data: bytes)
    ensures var s, c := Assemble([], data), Split(data);
            (c.rest == [] ==> Deserialized(s.buffer) == None)
            && (AllAccepted(c.pieces) ==> s == Assembly(NonEmpty(c.pieces), c.rest))
            && (!AllAccepted(c.pieces) ==> |s.frames| < |NonEmpty(c.pieces)|)
  {
    if data != [] {
      var init, b := data[..|data| - 1], data[|data| - 1];
      AssembleStep(init);
      if b == END {
        var c := Split(init);
        assert (c.pieces + [c.rest])[..|c.pieces|] == c.pieces;
        assert AllAccepted(c.pieces + [c.rest])
            <==> AllAccepted(c.pieces + []) && (c.rest != [] ==> Deserialized(c.rest) != None) by {
          assert c.pieces + [] == c.pieces;
          assert c.rest in c.pieces + [c.rest];
          assert forall p :: p in c.pieces ==> p in c.pieces + [c.rest];
        }
        assert c.pieces + [] == c.pieces;
      }
    }
  }

  /** The proxy hands on the pieces of the reference cut exactly when all of them decode. */
  lemma ProxyExactlyWhenAccepted(data: bytes)
    ensures Assemble([], data).frames == NonEmpty(Split(data).pieces) <==> AllAccepted(Split(data).pieces)
    ensures AllAccepted(Split(data).pieces) ==> Assemble([], data).buffer == Split(data).rest
  {
    AssembleStep(data);
  }

  lemma {:induction false} NonEmptyAll(pieces: seq<bytes>)
    requires [] !in pieces
    ensures NonEmpty(pieces) == pieces
  {
    if pieces != [] {
      NonEmptyAll(pieces[..|pieces| - 1]);
    }
  }

  /** What the proxy takes a frame to be: it parses the escaped body. */
  function HeardByProxy(frame: Frame): Frame {
    Parsed(Escaped(Built(frame)))
  }

  /** For frames as the peer writes them the proxy hands on exactly the escaped bodies, in
      order and with nothing left over. */
  lemma ProxyReadsBodies(frames: seq<Frame>)
    ensures Assemble([], Wires(frames)) == Assembly(Bodies(frames), [])
    ensures forall i :: 0 <= i < |frames| ==> Parsed(Bodies(frames)[i]) == HeardByProxy(frames[i])
  {
    BodiesAre(frames);
    BodiesEndFree(frames);
    SplitUnique(Bodies(frames), []);
    assert Wires(frames) + [] == Wires(frames);
    forall p | p in Bodies(frames) ensures p != [] && Deserialized(p) != None {
      var i :| 0 <= i < |frames| && p == Bodies(frames)[i];
      FrameRoundTrip(frames[i]);
      EncodingShape(Built(frames[i]));
    }
    NonEmptyAll(Bodies(frames));
    ProxyExactlyWhenAccepted(Wires(frames));
  }

  /** The proxy hears the address and payload the peer meant exactly when neither holds a
      reserved byte. */
  lemma ProxyHearsExactly(frame: Frame)
    ensures HeardByProxy(frame) == frame <==> Unreserved(Built(frame))
  {
    var body := Built(frame);
    EscapingIsVisible(body);
    EncodingShape(body);
    ParseUndoesBuild(frame);
    var e := Escaped(body);
    if Parsed(e) == frame {
      assert e == [e[0], e[1]] + e[2..];
      assert e == Built(Parsed(e));
    }
  }

  /** A concrete frame that goes astray: what the peer writes to socket 0x00C0 is taken to
      be for socket 0x00DB. */
  lemma ProxyMishears(payload: bytes)
    ensures HeardByProxy(Frame(0x00C0, payload)) == Frame(0x00DB, [TRANSPOSED_END] + Escaped(payload))
  {
    var head: bytes := [0x00, 0xC0];
    assert Built(Frame(0x00C0, payload)) == head + payload;
    EscapedAppends(head, payload);
    EscapedHead();
    HearAfter([0x00, ESC], [TRANSPOSED_END], Escaped(payload));
  }

  lemma EscapedHead()
    ensures Escaped([0x00, 0xC0]) == [0x00, ESC] + [TRANSPOSED_END]
  {
    EscapeOneMore([], 0x00);
    EscapeOneMore([0x00], 0xC0);
    assert [0x00] + [0xC0] == [0x00, 0xC0] && [] + [0x00] == [0x00];
  }

  lemma HearAfter(address: bytes, first: bytes, rest: bytes)
    requires |address| == 2
    ensures Parsed(address + first + rest) == Frame(address[0] as int * 0x100 + address[1] as int, first + rest)
  {
    assert (address + first + rest)[2..] == first + rest;
  }

  lemma {:induction false} EscapedAppends(x: bytes, y: bytes)
    ensures Escaped(x + y) == Escaped(x) + Escaped(y)
  {
    if y == [] {
      assert x + y == x;
    } else {
      var init, b := y[..|y| - 1], y[|y| - 1];
      EscapedAppends(x, init);
      LastByte(x, y);
      EscapeOneMore(x + init, b);
      EscapeOneMore(init, b);
      Associates(Escaped(x), Escaped(init), Escape(b));
    }
  }

  lemma LastByte(x: bytes, y: bytes)
    requires y != []
    ensures var init, b := y[..|y| - 1], y[|y| - 1]; y == init + [b] && x + y == (x + init) + [b]
  {
  }
}
