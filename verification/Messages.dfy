/** What travels between the proxy and its peers. JSON text is seen only through the
    control messages it stands for; the texts themselves come from a codec. */
module Messages {
  import opened Bytes
  import opened Sessions
  import JsonStream
  import SlipDataProcessor

  datatype ProxyError =
    NoError | InvalidUuid | InternalServerError | ServerNotFound | AlreadyRegistered | UnknownSocketAddress

  datatype Procedure =
    | Hello
    | Introspect
    | RegisterServer(serverUuid: Uuid, serverName: string)
    | RegisterClient(clientUuid: Uuid, clientName: string, serverUuid: Uuid)
    | DisconnectClient(socketAddress: u16)
    | Ping(timestamp: nat)

  /** A packet that is not a valid call is answered with an error and a kill; the id is -1
      when none could be read. */
  datatype Request = Call(id: int, procedure: Procedure) | Unusable(id: int)

  datatype Reply =
    | Description
    | ServerRegistration(error: ProxyError)
    | ClientRegistration(error: ProxyError)
    | Disconnection(error: ProxyError)
    | Pong(timestamp: nat)

  datatype Control =
    | Response(id: int, reply: Reply)
    | ErrorResponse(id: int)
    | ClientConnected(id: int, name: string, client: Uuid, peerAddress: string, address: u16)
    | ClientDisconnected(id: int, address: u16)
  {
    predicate IsAnswer() {
      Response? || ErrorResponse?
    }
  }

  /** One write on a socket: a control message in plain or in a frame for address 0, a
      client's chunk in a frame for its address, or a payload forwarded as it is. */
  datatype Message =
    | Plain(control: Control)
    | Framed(control: Control)
    | Tunnel(address: u16, data: bytes)
    | Forward(data: bytes)
  {
    predicate IsAnswer() {
      (Plain? || Framed?) && control.IsAnswer()
    }
  }

  /** What a message tells a tunnel server about its sessions. */
  function Told(m: Message): Option<SessionEvent> {
    match m
    case Plain(ClientConnected(_, _, client, _, a)) => Some(Begin(a, client))
    case Framed(ClientConnected(_, _, client, _, a)) => Some(Begin(a, client))
    case Plain(ClientDisconnected(_, a)) => Some(End({a}))
    case Framed(ClientDisconnected(_, a)) => Some(End({a}))
    case Tunnel(a, data) => Some(Chunk(a, data))
    case _ => None
  }

  function Story(ms: seq<Message>): seq<SessionEvent> {
    if ms == [] then [] else
      Story(ms[..|ms| - 1]) + match Told(ms[|ms| - 1]) case None => [] case Some(e) => [e]
  }

  lemma StoryOneMore(ms: seq<Message>, m: Message)
    ensures Story(ms + [m]) == Story(ms) + match Told(m) case None => [] case Some(e) => [e]
  {
    assert (ms + [m])[..|ms|] == ms;
  }

  lemma {:induction false} StoryAppends(xs: seq<Message>, ys: seq<Message>)
    ensures Story(xs + ys) == Story(xs) + Story(ys)
  {
    if ys == [] {
      assert xs + ys == xs;
    } else {
      var init, m := ys[..|ys| - 1], ys[|ys| - 1];
      assert xs + ys == (xs + init) + [m];
      StoryOneMore(xs + init, m);
      StoryAppends(xs, init);
    }
  }

  /** How control messages are printed and read back. */
  datatype Codec = Codec(encode: Control -> bytes, decode: bytes -> Option<Control>)

  /** A compact JSON object followed by one newline, read back as what was printed. */
  ghost predicate Prints(codec: Codec, c: Control) {
    var text := codec.encode(c);
    codec.decode(text) == Some(c) && JsonStream.EndsPacket(text) && JsonStream.Unsplit(text)
  }

  /** The bytes of a message on the wire. */
  function MessageWire(codec: Codec, m: Message): bytes {
    match m
    case Plain(c) => codec.encode(c)
    case Framed(c) => SlipDataProcessor.Wire(SlipDataProcessor.Frame(0, codec.encode(c)))
    case Tunnel(a, data) => SlipDataProcessor.Wire(SlipDataProcessor.Frame(a, data))
    case Forward(data) => data
  }
}
