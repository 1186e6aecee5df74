/** Cutting a stream of JSON texts into packets at every "}\n{"
    (libnymea-remoteproxy/tunnelproxy/tunnelproxyclient.cpp and
    libnymea-remoteproxyclient/proxyjsonrpcclient.cpp share this loop). */
module JsonStream {
  import opened Bytes

  const OPEN: byte := 0x7B
  const CLOSE: byte := 0x7D
  const NEWLINE: byte := 0x0A

  predicate SplitAt(text: bytes, i: int) {
    0 <= i && i + 2 < |text| && text[i] == CLOSE && text[i + 1] == NEWLINE && text[i + 2] == OPEN
  }

  ghost predicate Unsplit(text: bytes) {
    forall i :: !SplitAt(text, i)
  }

  predicate EndsPacket(text: bytes) {
    (text != [] && text[|text| - 1] == CLOSE)
    || (|text| >= 2 && text[|text| - 2] == CLOSE && text[|text| - 1] == NEWLINE)
  }

  /** QByteArray::indexOf("}\n{"): the first split, or -1. */
  function IndexOfSplit(text: bytes, from: nat := 0): (i: int)
    requires from <= |text|
    ensures i == -1 || (from <= i && SplitAt(text, i))
    ensures forall j :: from <= j && (i == -1 || j < i) ==> !SplitAt(text, j)
    decreases |text| - from
  {
    if SplitAt(text, from) then from
    else if from == |text| then -1
    else IndexOfSplit(text, from + 1)
  }

  /** Packets cut off at splits, each followed in the stream by a newline that is dropped;
      a last packet taken because the text ended there, with nothing dropped; what stays
      buffered. */
  datatype Ingested = Ingested(cut: seq<bytes>, last: Option<bytes>, buffer: bytes) {
    function Packets(): seq<bytes> {
      cut + match last case None => [] case Some(p) => [p]
    }

    /** The stretch of the stream these packets were cut from. */
    function Restored(): bytes {
      WithNewlines(cut) + match last case None => [] case Some(p) => p
    }
  }

  function WithNewlines(packets: seq<bytes>): bytes {
    if packets == [] then [] else packets[0] + [NEWLINE] + WithNewlines(packets[1..])
  }

  function CutSplits(text: bytes): (r: Ingested)
    decreases |text|
  {
    var i := IndexOfSplit(text);
    if i == -1 then Ingested([], None, text)
    else
      var r := CutSplits(text[i + 2..]);
      r.(cut := [text[..i + 1]] + r.cut)
  }

  function Ingest(buffer: bytes, data: bytes): Ingested {
    var r := CutSplits(buffer + data);
    if EndsPacket(r.buffer) then Ingested(r.cut, Some(r.buffer), []) else r
  }

  /** The loop of processData. */
  method ProcessData(buffer: bytes, data: bytes) returns (packets: seq<bytes>, buffer': bytes)
    ensures packets == Ingest(buffer, data).Packets()
    ensures buffer' == Ingest(buffer, data).buffer
  {
    packets := [];
    buffer' := buffer + data;
    var splitIndex := IndexOfSplit(buffer');
    while splitIndex > -1
      invariant splitIndex == IndexOfSplit(buffer')
      invariant packets + CutSplits(buffer').cut == CutSplits(buffer + data).cut
      invariant CutSplits(buffer').buffer == CutSplits(buffer + data).buffer
      decreases |buffer'|
    {
      CutOne(buffer', packets);
      packets := packets + [buffer'[..splitIndex + 1]];
      buffer' := buffer'[splitIndex + 2..];
      splitIndex := IndexOfSplit(buffer');
    }
    CutSplitsHasNoLast(buffer + data);
    if EndsPacket(buffer') {
      packets := packets + [buffer'];
      buffer' := [];
    }
  }

  lemma CutOne(text: bytes, done: seq<bytes>)
    requires IndexOfSplit(text) != -1
    ensures var i := IndexOfSplit(text);
            var r := CutSplits(text[i + 2..]);
            done + CutSplits(text).cut == (done + [text[..i + 1]]) + r.cut && CutSplits(text).buffer == r.buffer
  {
    var i := IndexOfSplit(text);
    var r := CutSplits(text[i + 2..]);
    assert CutSplits(text) == r.(cut := [text[..i + 1]] + r.cut);
    PutOne(done, text[..i + 1], r.cut);
  }

  lemma PutOne(done: seq<bytes>, packet: bytes, rest: seq<bytes>)
    ensures done + ([packet] + rest) == (done + [packet]) + rest
  {
  }

  lemma {:induction false} CutSplitsHasNoLast(text: bytes)
    ensures CutSplits(text).last == None
    decreases |text|
  {
    var i := IndexOfSplit(text);
    if i != -1 {
      CutSplitsHasNoLast(text[i + 2..]);
    }
  }

  lemma SplitParts(text: bytes, i: nat)
    requires SplitAt(text, i)
    ensures text == text[..i + 1] + [NEWLINE] + text[i + 2..] && EndsPacket(text[..i + 1])
    ensures (forall j :: j < i ==> !SplitAt(text, j)) ==> Unsplit(text[..i + 1])
  {
    var head := text[..i + 1];
    if forall j :: j < i ==> !SplitAt(text, j) {
      forall j ensures !SplitAt(head, j) {
        assert j < i ==> !SplitAt(text, j);
      }
    }
  }

  lemma {:induction false} CutSplitsConserves(text: bytes)
    ensures WithNewlines(CutSplits(text).cut) + CutSplits(text).buffer == text
    decreases |text|
  {
    var i := IndexOfSplit(text);
    if i == -1 {
      assert WithNewlines([]) + text == text;
    } else {
      var head, tail := text[..i + 1], text[i + 2..];
      CutSplitsConserves(tail);
      SplitParts(text, i);
      var r := CutSplits(tail);
      assert ([head] + r.cut)[1..] == r.cut;
      Associates(head + [NEWLINE], WithNewlines(r.cut), r.buffer);
    }
  }

  lemma {:induction false} CutSplitsUnsplit(text: bytes)
    ensures Unsplit(CutSplits(text).buffer)
    ensures forall p :: p in CutSplits(text).cut ==> Unsplit(p) && EndsPacket(p)
    decreases |text|
  {
    var i := IndexOfSplit(text);
    if i != -1 {
      CutSplitsUnsplit(text[i + 2..]);
      SplitParts(text, i);
    }
  }

  /** One chunk: with the dropped newlines back in place the packets and the new buffer are
      the old buffer and the chunk; every packet is a finished text with no split
      inside; what stays buffered is
      an unfinished packet. */
  lemma IngestConserves(buffer: bytes, data: bytes)
    ensures var r := Ingest(buffer, data);
            r.Restored() + r.buffer == buffer + data
            && (forall p :: p in r.Packets() ==> Unsplit(p) && EndsPacket(p))
            && Unsplit(r.buffer) && !EndsPacket(r.buffer)
  {
    var c, r := CutSplits(buffer + data), Ingest(buffer, data);
    CutSplitsConserves(buffer + data);
    CutSplitsUnsplit(buffer + data);
    CutSplitsHasNoLast(buffer + data);
    assert r.Restored() + r.buffer == WithNewlines(c.cut) + c.buffer;
  }

  /** What a connection has handed on after any sequence of chunks. */
  datatype History = History(packets: seq<bytes>, restored: bytes, buffer: bytes)

  function Feed(chunks: seq<bytes>): History {
    if chunks == [] then History([], [], []) else
      var h := Feed(chunks[..|chunks| - 1]);
      var r := Ingest(h.buffer, chunks[|chunks| - 1]);
      History(h.packets + r.Packets(), h.restored + r.Restored(), r.buffer)
  }

  /** Any chunk sequence: no byte but one newline per split is lost, whatever the chunking. */
  lemma {:induction false} FeedConserves(chunks: seq<bytes>)
    ensures var h := Feed(chunks);
            h.restored + h.buffer == Concat(chunks)
            && (forall p :: p in h.packets ==> Unsplit(p) && EndsPacket(p))
            && Unsplit(h.buffer) && !EndsPacket(h.buffer)
  {
    if chunks != [] {
      var init, data := chunks[..|chunks| - 1], chunks[|chunks| - 1];
      FeedConserves(init);
      var h := Feed(init);
      IngestConserves(h.buffer, data);
      var r := Ingest(h.buffer, data);
      Associates(h.restored, r.Restored(), r.buffer);
      Associates(h.restored, h.buffer, data);
    }
  }

  /** A text that is one finished packet, met with an empty buffer, is handed on whole. */
  lemma WholePacket(text: bytes)
    requires Unsplit(text) && EndsPacket(text)
    ensures Ingest([], text).Packets() == [text] && Ingest([], text).buffer == []
  {
    assert [] + text == text;
  }

  // ---------------------------------------------------------------- one text in chunks

  /** No chunk of a text ends where a packet could end, save the last. */
  predicate CutSafely(chunks: seq<bytes>) {
    forall i :: 0 <= i < |chunks| ==> !EndsPacket(Concat(chunks[..i]))
  }

  lemma UnsplitPrefix(text: bytes, n: nat)
    requires Unsplit(text) && n <= |text|
    ensures Unsplit(text[..n])
  {
    forall i ensures !SplitAt(text[..n], i) {
      assert !SplitAt(text, i);
    }
  }

  lemma ConcatPrefix(chunks: seq<bytes>)
    requires chunks != []
    ensures Concat(chunks[..|chunks| - 1]) == Concat(chunks)[..|Concat(chunks[..|chunks| - 1])|]
  {
  }

  lemma CutSafelyButLast(chunks: seq<bytes>)
    requires chunks != []
    ensures CutSafely(chunks) <==> CutSafely(chunks[..|chunks| - 1]) && !EndsPacket(Concat(chunks[..|chunks| - 1]))
  {
    var n := |chunks| - 1;
    assert forall i :: 0 <= i < n ==> chunks[..n][..i] == chunks[..i];
  }

  /** Until the text ends nothing is handed on. */
  lemma {:induction false} NothingYet(chunks: seq<bytes>)
    requires Unsplit(Concat(chunks)) && CutSafely(chunks) && !EndsPacket(Concat(chunks))
    ensures Feed(chunks) == History([], [], Concat(chunks))
  {
    if chunks != [] {
      var n := |chunks| - 1;
      ConcatPrefix(chunks);
      UnsplitPrefix(Concat(chunks), |Concat(chunks[..n])|);
      CutSafelyButLast(chunks);
      NothingYet(chunks[..n]);
      assert Ingest(Concat(chunks[..n]), chunks[n]) == Ingested([], None, Concat(chunks));
    }
  }

  /** A finished text without a split inside is handed on whole exactly when no chunk but the
      last ends behind a closing brace: else its beginning is taken for a packet. */
  lemma WholeInChunksExactly(chunks: seq<bytes>)
    requires Unsplit(Concat(chunks)) && EndsPacket(Concat(chunks))
    requires chunks[|chunks| - 1] != []
    ensures Feed(chunks).packets == [Concat(chunks)] <==> CutSafely(chunks)
    ensures CutSafely(chunks) ==> Feed(chunks).buffer == []
  {
    if CutSafely(chunks) {
      WholeAtLast(chunks);
    } else {
      SomethingEarly(chunks);
    }
  }

  lemma WholeAtLast(chunks: seq<bytes>)
    requires Unsplit(Concat(chunks)) && EndsPacket(Concat(chunks)) && CutSafely(chunks)
    ensures Feed(chunks).packets == [Concat(chunks)] && Feed(chunks).buffer == []
  {
    var n := |chunks| - 1;
    ConcatPrefix(chunks);
    UnsplitPrefix(Concat(chunks), |Concat(chunks[..n])|);
    CutSafelyButLast(chunks);
    NothingYet(chunks[..n]);
    LastChunk(Concat(chunks[..n]), chunks[n]);
  }

  lemma LastChunk(buffer: bytes, data: bytes)
    requires Unsplit(buffer + data) && EndsPacket(buffer + data)
    ensures Ingest(buffer, data).Packets() == [buffer + data] && Ingest(buffer, data).buffer == []
  {
  }

  lemma {:induction false} NewlinesCover(packets: seq<bytes>)
    ensures forall p :: p in packets ==> |p| <= |WithNewlines(packets)|
    ensures packets == [] ==> WithNewlines(packets) == []
  {
    if packets != [] {
      NewlinesCover(packets[1..]);
      forall p | p in packets ensures |p| <= |WithNewlines(packets)| {
        assert p == packets[0] || p in packets[1..];
      }
    }
  }

  /** What has been handed on was there. */
  lemma {:induction false} FeedCovers(chunks: seq<bytes>)
    ensures var h := Feed(chunks);
            (forall p :: p in h.packets ==> |p| <= |h.restored|) && (h.packets == [] ==> h.restored == [])
  {
    if chunks != [] {
      var h := Feed(chunks[..|chunks| - 1]);
      FeedCovers(chunks[..|chunks| - 1]);
      NewlinesCover(Ingest(h.buffer, chunks[|chunks| - 1]).cut);
    }
  }

  lemma {:induction false} FeedGrows(chunks: seq<bytes>, i: nat)
    requires i <= |chunks|
    ensures Feed(chunks[..i]).packets <= Feed(chunks).packets && |Concat(chunks[..i])| <= |Concat(chunks)|
    decreases |chunks|
  {
    if i == |chunks| {
      assert chunks[..i] == chunks;
    } else {
      var n := |chunks| - 1;
      FeedGrows(chunks[..n], i);
      assert chunks[..n][..i] == chunks[..i];
    }
  }

  lemma HandedOnEarly(chunks: seq<bytes>)
    requires EndsPacket(Concat(chunks))
    ensures Feed(chunks).packets != [] && |Feed(chunks).packets[0]| <= |Concat(chunks)|
  {
    var h := Feed(chunks);
    FeedConserves(chunks);
    FeedCovers(chunks);
    assert h.packets == [] ==> h.restored + h.buffer == h.buffer;
    assert h.packets != [] ==> h.packets[0] in h.packets;
  }

  lemma ShortOfTheEnd(chunks: seq<bytes>, i: nat)
    requires i < |chunks| && chunks[|chunks| - 1] != []
    ensures |Concat(chunks[..i])| < |Concat(chunks)|
  {
    var n := |chunks| - 1;
    FeedGrows(chunks[..n], i);
    assert chunks[..n][..i] == chunks[..i];
  }

  lemma FirstOf(early: seq<bytes>, all: seq<bytes>, text: bytes)
    requires early <= all && early != [] && |early[0]| < |text|
    ensures all != [text]
  {
    assert all[0] == early[0];
  }

  /** A chunk that ends behind a brace too early: something shorter is handed on by then. */
  lemma SomethingEarly(chunks: seq<bytes>)
    requires chunks != [] && chunks[|chunks| - 1] != [] && !CutSafely(chunks)
    ensures Feed(chunks).packets != [Concat(chunks)]
  {
    var i :| 0 <= i < |chunks| && EndsPacket(Concat(chunks[..i]));
    HandedOnEarly(chunks[..i]);
    FeedGrows(chunks, i);
    ShortOfTheEnd(chunks, i);
    FirstOf(Feed(chunks[..i]).packets, Feed(chunks).packets, Concat(chunks));
  }
}
