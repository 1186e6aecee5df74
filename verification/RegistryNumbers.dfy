/** The numbers on notifications: one counter for the whole proxy, never used twice, so that
    only the very first notification of a run carries the id the client library reserves for
    its own requests. */
module RegistryNumbers {
  import opened Bytes
  import opened Messages
  import opened AddressAllocator
  import opened Registry
  import opened RegistryInvariant
  import JsonStream
  import Framing
  import SlipDataProcessor

  predicate IsNotification(e: Entry) {
    e.Sent? && (e.message.Plain? || e.message.Framed?) && !e.message.IsAnswer()
  }

  function Notifications(log: seq<Entry>): nat {
    if log == [] then 0 else Notifications(log[..|log| - 1]) + if IsNotification(log[|log| - 1]) then 1 else 0
  }

  /** Every notification carries the number of notifications before it. */
  predicate Numbered(log: seq<Entry>) {
    log == [] ||
    (Numbered(log[..|log| - 1])
     && (IsNotification(log[|log| - 1]) ==> log[|log| - 1].message.control.id == Notifications(log[..|log| - 1])))
  }

  predicate Counts(r: State) {
    Numbered(r.log) && Notifications(r.log) == r.notificationId
  }

  lemma NumberedOneMore(log: seq<Entry>, e: Entry)
    ensures Notifications(log + [e]) == Notifications(log) + if IsNotification(e) then 1 else 0
    ensures Numbered(log + [e]) <==> Numbered(log) && (IsNotification(e) ==> e.message.control.id == Notifications(log))
  {
    assert (log + [e])[..|log|] == log;
  }

  /** At most one entry more, with the counter's number if it is a notification. */
  predicate OneStep(r: State, r': State) {
    (r'.log == r.log && r'.notificationId == r.notificationId)
    || (|r'.log| == |r.log| + 1 && r'.log[..|r.log|] == r.log
        && var e := r'.log[|r.log|];
           if IsNotification(e)
           then e.message.control.id == r.notificationId && r'.notificationId == r.notificationId + 1
           else r'.notificationId == r.notificationId)
  }

  lemma OneStepCounts(r: State, r': State)
    requires Counts(r) && OneStep(r, r')
    ensures Counts(r')
  {
    if r'.log != r.log {
      assert r'.log == r.log + [r'.log[|r.log|]];
      NumberedOneMore(r.log, r'.log[|r.log|]);
    }
  }

  lemma InvokeCounts(r: State, id: ClientId, p: Procedure)
    requires Counts(r)
    ensures Counts(Invoke(r, id, p).0)
  {
    InvokeIsOneStep(r, id, p);
    OneStepCounts(r, Invoke(r, id, p).0);
  }

  lemma InvokeIsOneStep(r: State, id: ClientId, p: Procedure)
    ensures OneStep(r, Invoke(r, id, p).0)
  {
  }

  lemma HandlePacketCounts(read: bytes -> Request, r: State, id: ClientId, packet: bytes)
    requires Counts(r)
    ensures Counts(HandlePacket(read, r, id, packet))
  {
    match read(packet)
    case Unusable(n) =>
      OneStepCounts(r, Send(r, id, ErrorResponse(n)));
      OneStepCounts(Send(r, id, ErrorResponse(n)), HandlePacket(read, r, id, packet));
    case Call(n, p) =>
      InvokeCounts(r, id, p);
      var (r1, reply) := Invoke(r, id, p);
      OneStepCounts(r1, Send(r1, id, Response(n, reply)));
      OneStepCounts(Send(r1, id, Response(n, reply)), HandlePacket(read, r, id, packet));
  }

  lemma HandleFrameCounts(read: bytes -> Request, r: State, id: ClientId, raw: bytes)
    requires Counts(r)
    ensures Counts(HandleFrame(read, r, id, raw))
  {
    var frame := SlipDataProcessor.Parsed(raw);
    if frame.socketAddress == JSON_ADDRESS {
      HandlePacketCounts(read, r, id, frame.data);
    } else {
      OneStepCounts(r, HandleFrame(read, r, id, raw));
    }
  }

  lemma DisconnectCounts(r: State, id: ClientId)
    requires Counts(r)
    ensures Counts(Disconnect(r, id))
  {
    if Listed(r, id) {
      var r1 := Unlist(r, id);
      OneStepCounts(r, r1);
      OneStepCounts(r1, Disconnect(r, id));
    }
  }

  lemma {:induction false} DisconnectAllCounts(r: State, ids: seq<ClientId>)
    requires Counts(r)
    ensures Counts(DisconnectAll(r, ids))
  {
    if ids != [] {
      DisconnectAllCounts(r, ids[..|ids| - 1]);
      DisconnectCounts(DisconnectAll(r, ids[..|ids| - 1]), ids[|ids| - 1]);
    }
  }

  lemma {:induction false} HandleItemsCounts(read: bytes -> Request, r: State, id: ClientId, items: seq<bytes>,
                                             slip: bool, hangups: seq<seq<ClientId>>)
    requires Counts(r)
    ensures Counts(HandleItems(read, r, id, items, slip, hangups))
  {
    if items != [] {
      var n := |items| - 1;
      HandleItemsCounts(read, r, id, items[..n], slip, hangups);
      var r1 := HandleItems(read, r, id, items[..n], slip, hangups);
      HandleFrameCounts(read, r1, id, items[n]);
      HandlePacketCounts(read, r1, id, items[n]);
      var r2 := if slip then HandleFrame(read, r1, id, items[n]) else HandlePacket(read, r1, id, items[n]);
      DisconnectAllCounts(r2, Hangups(hangups, n));
    }
  }

  lemma ReceiveJsonCounts(read: bytes -> Request, r: State, id: ClientId, data: bytes, hangups: seq<seq<ClientId>>)
    requires Counts(r) && id in r.transports
    ensures Counts(ReceiveJson(read, r, id, data, hangups))
  {
    var s := JsonStream.Ingest(r.transports[id].buffer, data);
    var r1 := WithBuffer(r, id, s.buffer);
    OneStepCounts(r1, Kill(r1, id));
    HandleItemsCounts(read, r1, id, s.Packets(), false, hangups);
  }

  lemma ReceiveSlipCounts(read: bytes -> Request, r: State, id: ClientId, data: bytes, hangups: seq<seq<ClientId>>)
    requires Counts(r) && id in r.transports
    ensures Counts(ReceiveSlip(read, r, id, data, hangups))
  {
    var s := Framing.Assemble(r.transports[id].buffer, data);
    HandleItemsCounts(read, WithBuffer(r, id, s.buffer), id, s.frames, true, hangups);
  }

  lemma StepCounts(read: bytes -> Request, r: State, e: Event)
    requires Counts(r)
    ensures Counts(Step(read, r, e))
  {
    match e
    case Data(id, data, hangups) => ReceiveCounts(read, r, id, data, hangups);
    case Disconnected(id) => DisconnectCounts(r, id);
    case _ => OneStepCounts(r, Step(read, r, e));
  }

  lemma ReceiveCounts(read: bytes -> Request, r: State, id: ClientId, data: bytes, hangups: seq<seq<ClientId>>)
    requires Counts(r)
    ensures Counts(Receive(read, r, id, data, hangups))
  {
    if Listed(r, id) {
      match r.transports[id].kind
      case TypeClient => TunnelCounts(r, r.transports[id].uuid, data);
      case TypeServer =>
        ReceiveJsonCounts(read, r, id, data, hangups);
        ReceiveSlipCounts(read, r, id, data, hangups);
      case TypeNone => ReceiveJsonCounts(read, r, id, data, hangups);
    }
  }

  lemma TunnelCounts(r: State, c: Uuid, data: bytes)
    requires Counts(r)
    ensures Counts(ReceiveTunnel(r, c, data))
  {
    OneStepCounts(r, ReceiveTunnel(r, c, data));
  }

  /** Over any run, crowded or not. */
  lemma {:induction false} RunCounts(read: bytes -> Request, es: seq<Event>)
    ensures Counts(Run(read, es))
  {
    if es != [] {
      RunCounts(read, es[..|es| - 1]);
      StepCounts(read, Run(read, es[..|es| - 1]), es[|es| - 1]);
    }
  }

  // ---------------------------------------------------------------- consequences

  lemma {:induction false} NumberAt(log: seq<Entry>, n: nat)
    requires Numbered(log) && n < |log| && IsNotification(log[n])
    ensures log[n].message.control.id == Notifications(log[..n]) < Notifications(log)
  {
    var m := |log| - 1;
    if n < m {
      NumberAt(log[..m], n);
      assert log[..m][..n] == log[..n];
    }
  }

  /** No number is used twice, on whatever sockets: later notifications carry higher ones. */
  lemma NumbersNeverRepeat(read: bytes -> Request, es: seq<Event>, m: nat, n: nat)
    requires m < n < |Run(read, es).log| && IsNotification(Run(read, es).log[m]) && IsNotification(Run(read, es).log[n])
    ensures 0 <= Run(read, es).log[m].message.control.id < Run(read, es).log[n].message.control.id
  {
    RunCounts(read, es);
    var log := Run(read, es).log;
    NumberAt(log, m);
    NumberAt(log, n);
    NumberedPrefix(log, n);
    assert log[..n][m] == log[m] && log[..n][..m] == log[..m];
    NumberAt(log[..n], m);
  }

  lemma {:induction false} NumberedPrefix(log: seq<Entry>, n: nat)
    requires Numbered(log) && n <= |log|
    ensures Numbered(log[..n])
  {
    if n == |log| {
      assert log[..n] == log;
    } else {
      NumberedPrefix(log[..|log| - 1], n);
      assert log[..|log| - 1][..n] == log[..n];
    }
  }

  /** Whatever is in an outbox was sent. */
  lemma {:induction false} OutboxWasSent(log: seq<Entry>, id: ClientId, m: Message) returns (n: nat)
    requires m in Outbox(log, id)
    ensures n < |log| && log[n] == Sent(id, m)
  {
    var k := |log| - 1;
    if log[k] == Sent(id, m) {
      n := k;
    } else {
      n := OutboxWasSent(log[..k], id, m);
    }
  }

  /** A notification carries the id 0 exactly if it is the first the proxy ever sends. */
  lemma OnlyTheFirstIsZero(read: bytes -> Request, es: seq<Event>, n: nat)
    requires n < |Run(read, es).log| && IsNotification(Run(read, es).log[n])
    ensures Run(read, es).log[n].message.control.id == 0 <==>
              forall i :: 0 <= i < n ==> !IsNotification(Run(read, es).log[i])
  {
    var log := Run(read, es).log;
    RunCounts(read, es);
    NumberAt(log, n);
    NoneBeforeExactly(log[..n]);
    assert forall i :: 0 <= i < n ==> log[..n][i] == log[i];
  }

  lemma {:induction false} NoneBeforeExactly(log: seq<Entry>)
    ensures Notifications(log) == 0 <==> forall i :: 0 <= i < |log| ==> !IsNotification(log[i])
  {
    if log != [] {
      var n := |log| - 1;
      NoneBeforeExactly(log[..n]);
      assert forall i :: 0 <= i < n ==> log[..n][i] == log[i];
    }
  }

  /** Once the first notification has gone to one socket, none on any other carries the id 0. */
  lemma NoneElsewhereIsZero(read: bytes -> Request, es: seq<Event>, first: nat, id: ClientId, m: Message)
    requires first < |Run(read, es).log| && IsNotification(Run(read, es).log[first])
    requires Run(read, es).log[first].message.control.id == 0 && Run(read, es).log[first].to != id
    requires m in Outbox(Run(read, es).log, id) && (m.Plain? || m.Framed?) && !m.IsAnswer()
    ensures m.control.id > 0
  {
    var n := OutboxWasSent(Run(read, es).log, id, m);
    RunCounts(read, es);
    NumberAt(Run(read, es).log, n);
    if n < first {
      NumbersNeverRepeat(read, es, n, first);
    } else {
      NumbersNeverRepeat(read, es, first, n);
    }
  }
}
