/** SLIP escaping with a big-endian 16-bit socket address in front of the payload
    (common/slipdataprocessor.cpp; the "PROTOCOL" section of RFC 1055).

    A null QByteArray is None; any other array is Some. */
module SlipDataProcessor {
  import opened Bytes

  const END: byte := 0xC0
  const ESC: byte := 0xDB
  const TRANSPOSED_END: byte := 0xDC
  const TRANSPOSED_ESC: byte := 0xDD

  datatype Frame = Frame(socketAddress: u16, data: bytes)

  // ---------------------------------------------------------------- specification

  function Escape(b: byte): bytes {
    if b == END then [ESC, TRANSPOSED_END]
    else if b == ESC then [ESC, TRANSPOSED_ESC]
    else [b]
  }

  function Escaped(data: bytes): bytes {
    if data == [] then [] else Escaped(data[..|data| - 1]) + Escape(data[|data| - 1])
  }

  function Serialized(data: bytes): bytes {
    Escaped(data) + [END]
  }

  /** What the decoder has read so far; Done after an END, Failed after a bad escape. */
  datatype Decoder = Reading(out: bytes, escaped: bool) | Done(out: bytes) | Failed

  function DecodeByte(d: Decoder, b: byte): Decoder {
    match d
    case Reading(out, true) =>
      if b == TRANSPOSED_END then Reading(out + [END], false)
      else if b == TRANSPOSED_ESC then Reading(out + [ESC], false)
      else Failed
    case Reading(out, false) =>
      if b == ESC then Reading(out, true)
      else if b == END then Done(out)
      else Reading(out + [b], false)
    case _ => d
  }

  function Decode(data: bytes): Decoder {
    if data == [] then Reading([], false)
    else DecodeByte(Decode(data[..|data| - 1]), data[|data| - 1])
  }

  /** An array nothing was appended to is still null. */
  function Deserialized(data: bytes): Option<bytes> {
    var d := Decode(data);
    if d.Failed? || d.out == [] then None else Some(d.out)
  }

  function Built(frame: Frame): bytes {
    [frame.socketAddress / 0x100, frame.socketAddress % 0x100] + frame.data
  }

  /** A stream too short for the address yields address 0 and no payload. */
  function Parsed(data: bytes): Frame {
    if |data| < 2 then Frame(0, []) else Frame(data[0] as int * 0x100 + data[1] as int, data[2..])
  }

  /** The bytes one frame occupies on the wire. */
  function Wire(frame: Frame): bytes {
    Serialized(Built(frame))
  }

  predicate EndFree(data: bytes) {
    END !in data
  }

  /** Neither of the two bytes SLIP has to escape occurs. */
  predicate Unreserved(data: bytes) {
    END !in data && ESC !in data
  }

  function ReservedCount(data: bytes): nat {
    multiset(data)[END] + multiset(data)[ESC]
  }

  /** Position i starts an escape sequence that is not one of the two legal ones. */
  predicate BadEscapeAt(data: bytes, i: int) {
    0 <= i && i + 1 < |data| && data[i] == ESC
    && data[i + 1] != TRANSPOSED_END && data[i + 1] != TRANSPOSED_ESC
  }

  ghost predicate HasBadEscape(data: bytes) {
    exists i :: BadEscapeAt(data, i)
  }

  // ---------------------------------------------------------------- the four operations

  method DeserializeData(data: bytes) returns (result: Option<bytes>)
    ensures result == Deserialized(data)
  {
    var deserializedData: bytes := [];
    var escaped := false;
    for i := 0 to |data|
      invariant Decode(data[..i]) == Reading(deserializedData, escaped)
    {
      assert data[..i + 1][..i] == data[..i];
      var b := data[i];
      if escaped {
        if b == TRANSPOSED_END {
          deserializedData := deserializedData + [END];
        } else if b == TRANSPOSED_ESC {
          deserializedData := deserializedData + [ESC];
        } else {
          DecodeIsFinal(data[..i + 1], data[i + 1..]);
          assert data[..i + 1] + data[i + 1..] == data;
          return None;
        }
        escaped := false;
        continue;
      }
      if b == ESC {
        escaped := true;
      } else if b == END {
        DecodeIsFinal(data[..i + 1], data[i + 1..]);
        assert data[..i + 1] + data[i + 1..] == data;
        return if deserializedData == [] then None else Some(deserializedData);
      } else {
        deserializedData := deserializedData + [b];
      }
    }
    assert data[..|data|] == data;
    return if deserializedData == [] then None else Some(deserializedData);
  }

  method SerializeData(data: bytes) returns (serializedData: bytes)
    ensures serializedData == Serialized(data)
  {
    serializedData := [];
    for i := 0 to |data|
      invariant serializedData == Escaped(data[..i])
    {
      assert data[..i + 1][..i] == data[..i];
      if data[i] == END {
        serializedData := serializedData + [ESC];
        serializedData := serializedData + [TRANSPOSED_END];
      } else if data[i] == ESC {
        serializedData := serializedData + [ESC];
        serializedData := serializedData + [TRANSPOSED_ESC];
      } else {
        serializedData := serializedData + [data[i]];
      }
    }
    assert data[..|data|] == data;
    serializedData := serializedData + [END];
  }

  method ParseFrame(data: bytes) returns (frame: Frame)
    ensures frame == Parsed(data)
  {
    if |data| < 2 {
      return Frame(0, []);
    }
    var payload: bytes := [];
    for i := 2 to |data|
      invariant payload == data[2..i]
    {
      payload := payload + [data[i]];
    }
    frame := Frame(data[0] as int * 0x100 + data[1] as int, payload);
  }

  method BuildFrame(frame: Frame) returns (data: bytes)
    ensures data == Built(frame)
  {
    data := [frame.socketAddress / 0x100, frame.socketAddress % 0x100];
    for i := 0 to |frame.data|
      invariant data == Built(frame)[..2 + i]
    {
      data := data + [frame.data[i]];
    }
  }

  // ---------------------------------------------------------------- decoding

  lemma DecodeOneMore(data: bytes, b: byte)
    ensures Decode(data + [b]) == DecodeByte(Decode(data), b)
  {
    assert (data + [b])[..|data|] == data;
  }

  lemma EscapeOneMore(data: bytes, b: byte)
    ensures Escaped(data + [b]) == Escaped(data) + Escape(b)
  {
    assert (data + [b])[..|data|] == data;
  }

  /** Once the decoder has stopped, later bytes do not matter. */
  lemma {:induction false} DecodeIsFinal(a: bytes, b: bytes)
    requires !Decode(a).Reading?
    ensures Decode(a + b) == Decode(a)
  {
    if b == [] {
      assert a + b == a;
    } else {
      assert (a + b)[..|a + b| - 1] == a + b[..|b| - 1];
      DecodeIsFinal(a, b[..|b| - 1]);
    }
  }

  lemma DecodeEscape(a: bytes, out: bytes, b: byte)
    requires Decode(a) == Reading(out, false)
    ensures Decode(a + Escape(b)) == Reading(out + [b], false)
  {
    if b == END || b == ESC {
      DecodeOneMore(a, ESC);
      var t := Escape(b)[1];
      DecodeOneMore(a + [ESC], t);
      assert a + Escape(b) == a + [ESC] + [t];
    } else {
      DecodeOneMore(a, b);
    }
  }

  /** A decoder standing between two escapes reads back exactly what was escaped. */
  lemma {:induction false} DecodeEscaped(a: bytes, out: bytes, data: bytes)
    requires Decode(a) == Reading(out, false)
    ensures Decode(a + Escaped(data)) == Reading(out + data, false)
  {
    if data == [] {
      assert a + Escaped(data) == a && out + data == out;
    } else {
      var init, last := data[..|data| - 1], data[|data| - 1];
      assert data == init + [last];
      DecodeEscaped(a, out, init);
      DecodeEscapedOneMore(a, out, init, last);
    }
  }

  lemma DecodeEscapedOneMore(a: bytes, out: bytes, data: bytes, b: byte)
    requires Decode(a + Escaped(data)) == Reading(out + data, false)
    ensures Decode(a + Escaped(data + [b])) == Reading(out + (data + [b]), false)
  {
    DecodeEscape(a + Escaped(data), out + data, b);
    EscapeOneMore(data, b);
    assert a + (Escaped(data) + Escape(b)) == (a + Escaped(data)) + Escape(b);
    assert out + (data + [b]) == (out + data) + [b];
  }

  lemma ReservedCountOneMore(data: bytes, b: byte)
    ensures ReservedCount(data + [b]) == ReservedCount(data) + if b == END || b == ESC then 1 else 0
  {
  }

  /** The encoding of any data is END-free, holds no bad escape, does not stop inside an
      escape, and grows by one byte for each reserved byte. */
  lemma {:induction false} EncodingShape(data: bytes)
    ensures EndFree(Escaped(data))
    ensures !HasBadEscape(Escaped(data))
    ensures |Escaped(data)| == |data| + ReservedCount(data)
    ensures data != [] ==> Escaped(data) != [] && Escaped(data)[|Escaped(data)| - 1] != ESC
  {
    if data != [] {
      var init, last := data[..|data| - 1], data[|data| - 1];
      EncodingShape(init);
      assert data == init + [last];
      ReservedCountOneMore(init, last);
      NoBadEscapeAcross(Escaped(init), last);
    }
  }

  lemma NoBadEscapeAcross(x: bytes, b: byte)
    requires !HasBadEscape(x) && (x != [] ==> x[|x| - 1] != ESC)
    ensures !HasBadEscape(x + Escape(b))
  {
    forall i ensures !BadEscapeAt(x + Escape(b), i) {
      assert !BadEscapeAt(x, i);
    }
  }

  /** Decoding an END-free piece fails exactly when some ESC is followed by a byte
      other than the two transposed ones. */
  lemma {:induction false} DecodeFailsExactly(data: bytes)
    requires EndFree(data)
    ensures Decode(data).Failed? <==> HasBadEscape(data)
    ensures Decode(data).Reading? ==>
              (Decode(data).escaped <==> data != [] && data[|data| - 1] == ESC)
    ensures !Decode(data).Done?
  {
    if data != [] {
      var init, last := data[..|data| - 1], data[|data| - 1];
      DecodeFailsExactly(init);
      if HasBadEscape(init) {
        var i :| BadEscapeAt(init, i);
        assert BadEscapeAt(data, i);
      }
      if HasBadEscape(data) {
        var i :| BadEscapeAt(data, i);
        if i + 1 < |init| {
          assert BadEscapeAt(init, i);
        }
      }
      if Decode(init).Reading? && Decode(init).escaped && Decode(data).Failed? {
        assert BadEscapeAt(data, |data| - 2);
      }
    }
  }

  /** The other half of the round trip: a piece the decoder accepts is the escaping of
      what it read, save for one trailing ESC that is silently dropped. */
  lemma {:induction false} DecodeInverts(data: bytes)
    requires EndFree(data) && Decode(data).Reading?
    ensures data == EncodedBy(Decode(data))
  {
    if data != [] {
      var init, last := data[..|data| - 1], data[|data| - 1];
      assert EndFree(init) && Decode(init).Reading?;
      DecodeInverts(init);
      EncodedOneMore(Decode(init), last);
    }
  }

  function EncodedBy(d: Decoder): bytes
    requires d.Reading?
  {
    Escaped(d.out) + if d.escaped then [ESC] else []
  }

  lemma EncodedOneMore(d: Decoder, b: byte)
    requires d.Reading? && b != END && DecodeByte(d, b).Reading?
    ensures EncodedBy(DecodeByte(d, b)) == EncodedBy(d) + [b]
  {
    if d.escaped {
      var c := if b == TRANSPOSED_END then END else ESC;
      EscapeOneMore(d.out, c);
      assert Escape(c) == [ESC] + [b];
    } else if b != ESC {
      EscapeOneMore(d.out, b);
    }
  }

  /** Which pieces the receivers accept, and what they take them to mean. */
  lemma AcceptedExactly(data: bytes, body: bytes)
    requires EndFree(data)
    ensures Deserialized(data) == Some(body)
            <==> body != [] && (data == Escaped(body) || data == Escaped(body) + [ESC])
  {
    DecodeFailsExactly(data);
    if Deserialized(data) == Some(body) {
      DecodeInverts(data);
    }
    DecodeEscaped([], [], body);
    assert [] + Escaped(body) == Escaped(body) && [] + body == body;
    DecodeOneMore(Escaped(body), ESC);
  }

  // ---------------------------------------------------------------- round trips

  lemma ParseUndoesBuild(frame: Frame)
    ensures Parsed(Built(frame)) == frame
    ensures |Built(frame)| == 2 + |frame.data|
  {
    assert Built(frame)[2..] == frame.data;
  }

  /** Building, escaping, unescaping and parsing is the identity, for every address and
      payload, whether or not the closing END is still there. */
  lemma FrameRoundTrip(frame: Frame)
    ensures Deserialized(Escaped(Built(frame))) == Some(Built(frame))
    ensures Deserialized(Wire(frame)) == Some(Built(frame))
    ensures Parsed(Deserialized(Wire(frame)).value) == frame
  {
    var body := Built(frame);
    ParseUndoesBuild(frame);
    DecodeEscaped([], [], body);
    assert [] + Escaped(body) == Escaped(body) && [] + body == body;
    DecodeOneMore(Escaped(body), END);
  }

  /** END closes the encoding and occurs nowhere else in it; the length is exact. */
  lemma WireShape(frame: Frame)
    ensures |Wire(frame)| == |frame.data| + 3 + ReservedCount(Built(frame))
    ensures forall i :: 0 <= i < |Wire(frame)| ==> (Wire(frame)[i] == END <==> i == |Wire(frame)| - 1)
  {
    EncodingShape(Built(frame));
    var e := Escaped(Built(frame));
    assert forall i :: 0 <= i < |e| ==> Wire(frame)[i] == e[i] && e[i] in e;
  }

  /** Escaping changes a body exactly when it holds a reserved byte. */
  lemma EscapingIsVisible(body: bytes)
    ensures Escaped(body) == body <==> Unreserved(body)
  {
    EncodingShape(body);
    if Unreserved(body) {
      EscapingUnreserved(body);
    } else {
      assert ReservedCount(body) > 0;
    }
  }

  lemma {:induction false} EscapingUnreserved(body: bytes)
    requires Unreserved(body)
    ensures Escaped(body) == body
  {
    if body != [] {
      EscapingUnreserved(body[..|body| - 1]);
    }
  }
}
