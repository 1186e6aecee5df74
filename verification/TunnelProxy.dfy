/** The proxy's objects, changed in place
    (libnymea-remoteproxy/tunnelproxy/, libnymea-remoteproxy/server/transportclient.cpp).
    What each operation does is stated on the values of Registry. */
module TunnelProxy {
  import opened Bytes
  import opened AddressAllocator
  import opened Registry
  import JsonStream
  import Framing
  import SlipDataProcessor

  /** One socket of the proxy. */
  class TunnelProxyClient {
    const clientId: ClientId
    const peerAddress: string
    var kind: Kind
    var uuid: Uuid
    var name: string
    var slipAfterResponse: bool
    var slipEnabled: bool
    var killConnectionRequested: bool
    var dataBuffer: bytes

    ghost function Value(listed: bool): Transport
      reads this
    {
      Transport(peerAddress, kind, uuid, name, slipAfterResponse, slipEnabled, killConnectionRequested,
                dataBuffer, listed)
    }

    constructor (clientId: ClientId, peerAddress: string)
      ensures this.clientId == clientId && this.peerAddress == peerAddress && !slipEnabled && !slipAfterResponse
      ensures forall listed ::
                Value(listed) == Transport(peerAddress, TypeNone, NULL_UUID, "", false, false, false, [], listed)
    {
      this.clientId := clientId;
      this.peerAddress := peerAddress;
      kind, uuid, name := TypeNone, NULL_UUID, "";
      slipAfterResponse, slipEnabled, killConnectionRequested := false, false, false;
      dataBuffer := [];
    }

    /** setType, setUuid and setName. */
    method SetRole(kind: Kind, uuid: Uuid, name: string)
      modifies this`kind, this`uuid, this`name
      ensures this.kind == kind && this.uuid == uuid && this.name == name
      ensures forall listed :: Value(listed) == old(Value(listed)).(kind := kind, uuid := uuid, name := name)
    {
      this.kind := kind;
      this.uuid := uuid;
      this.name := name;
    }

    method SetSlipAfterResponse()
      modifies this`slipAfterResponse
      ensures slipAfterResponse && forall listed :: Value(listed) == old(Value(listed)).(slipAfter := true)
    {
      slipAfterResponse := true;
    }

    /** Frames byte by byte once SLIP is on, JSON packets before. */
    method ProcessData(data: bytes) returns (packets: seq<bytes>)
      modifies this`dataBuffer
      ensures slipEnabled ==> Framing.Assembly(packets, dataBuffer) == Framing.Assemble(old(dataBuffer), data)
      ensures !slipEnabled ==>
                packets == JsonStream.Ingest(old(dataBuffer), data).Packets()
                && dataBuffer == JsonStream.Ingest(old(dataBuffer), data).buffer
    {
      packets := [];
      if slipEnabled {
        for i := 0 to |data|
          invariant Framing.Assembly(packets, dataBuffer) == Framing.Assemble(old(dataBuffer), data[..i])
        {
          assert data[..i + 1][..i] == data[..i];
          var b := data[i];
          if b == SlipDataProcessor.END {
            if dataBuffer == [] {
              continue;
            }
            var frame := SlipDataProcessor.DeserializeData(dataBuffer);
            if frame.Some? {
              packets := packets + [dataBuffer];
              dataBuffer := [];
            }
          } else {
            dataBuffer := dataBuffer + [b];
          }
        }
        assert data[..|data|] == data;
      } else {
        packets, dataBuffer := JsonStream.ProcessData(dataBuffer, data);
      }
    }
  }

  /** A registered client and the server it talks to. */
  class TunnelProxyClientConnection {
    const transportClient: TunnelProxyClient
    const clientUuid: Uuid
    var serverConnection: TunnelProxyServerConnection?
    var serverUuid: Uuid
    var socketAddress: u16
    ghost var fed: seq<bytes>

    ghost function Value(): ClientConnection
      reads this
    {
      ClientConnection(transportClient.clientId,
                       if serverConnection == null then None else Some(serverConnection.serverUuid),
                       socketAddress, fed)
    }

    /** The cached uuid is that of the server pointed to. */
    ghost predicate Valid()
      reads this
    {
      serverUuid == if serverConnection == null then NULL_UUID else serverConnection.serverUuid
    }

    constructor (transportClient: TunnelProxyClient, clientUuid: Uuid)
      ensures this.transportClient == transportClient && this.clientUuid == clientUuid
      ensures Valid() && serverConnection == null && fed == []
    {
      this.transportClient := transportClient;
      this.clientUuid := clientUuid;
      serverConnection, serverUuid, socketAddress := null, NULL_UUID, NO_ADDRESS;
      fed := [];
    }

    method SetServerConnection(serverConnection: TunnelProxyServerConnection?)
      modifies this`serverConnection, this`serverUuid
      ensures Valid() && this.serverConnection == serverConnection
    {
      this.serverConnection := serverConnection;
      if serverConnection != null {
        serverUuid := serverConnection.serverUuid;
      } else {
        serverUuid := NULL_UUID;
      }
    }
  }

  /** A registered server with the two indexes of its clients. */
  class TunnelProxyServerConnection {
    const transportClient: TunnelProxyClient
    const serverUuid: Uuid
    var currentAddressCounter: u16
    var clientConnections: map<Uuid, TunnelProxyClientConnection>
    var clientConnectionsAddresses: map<u16, TunnelProxyClientConnection>

    ghost function Value(): ServerConnection
      reads this
    {
      ServerConnection(transportClient.clientId, currentAddressCounter, clientConnections.Keys,
                       Uuids(clientConnectionsAddresses))
    }

    constructor (transportClient: TunnelProxyClient, serverUuid: Uuid)
      ensures this.transportClient == transportClient && this.serverUuid == serverUuid
      ensures Value() == ServerConnection(transportClient.clientId, 0, {}, map[])
      ensures clientConnections == map[] && clientConnectionsAddresses == map[] && currentAddressCounter == 0
    {
      this.transportClient := transportClient;
      this.serverUuid := serverUuid;
      currentAddressCounter := 0;
      clientConnections, clientConnectionsAddresses := map[], map[];
    }

    /** The scan for a free address. */
    method GetFreeAddress() returns (address: u16)
      modifies this`currentAddressCounter
      ensures currentAddressCounter == Wrap(old(currentAddressCounter) as nat + 1)
      ensures address == NextAddress(clientConnectionsAddresses.Keys, old(currentAddressCounter))
    {
      currentAddressCounter := Wrap(currentAddressCounter as nat + 1);
      address := currentAddressCounter;
      ghost var used := clientConnectionsAddresses.Keys;
      for i := 0 to CONNECTION_LIMIT
        invariant Scan(used, address, CONNECTION_LIMIT - i) == Scan(used, currentAddressCounter, CONNECTION_LIMIT)
      {
        if address in clientConnectionsAddresses || address == 0x0000 || address == 0xFFFF {
          address := Wrap(address as nat + 1);
        } else {
          break;
        }
      }
    }

    method RegisterClientConnection(c: TunnelProxyClientConnection)
      modifies this, c`serverConnection, c`serverUuid, c`socketAddress
      ensures Value() == Attach(old(Value()), c.clientUuid)
      ensures c.Valid() && c.serverConnection == this
      ensures c.socketAddress == NextAddress(old(clientConnectionsAddresses.Keys), old(currentAddressCounter))
      ensures currentAddressCounter == Wrap(old(currentAddressCounter) as nat + 1)
      ensures clientConnections == old(clientConnections)[c.clientUuid := c]
      ensures clientConnectionsAddresses == old(clientConnectionsAddresses)[c.socketAddress := c]
    {
      ghost var s := Value();
      assert s.byAddress.Keys == clientConnectionsAddresses.Keys;
      var socketAddress := GetFreeAddress();
      assert Value() == s.(counter := currentAddressCounter);
      c.socketAddress := socketAddress;
      c.SetServerConnection(this);
      Index(c);
    }

    /** Client c enters both indexes. */
    method Index(c: TunnelProxyClientConnection)
      modifies this`clientConnections, this`clientConnectionsAddresses
      ensures clientConnections == old(clientConnections)[c.clientUuid := c]
      ensures clientConnectionsAddresses == old(clientConnectionsAddresses)[c.socketAddress := c]
      ensures Value() == old(Value()).(byUuid := old(Value()).byUuid + {c.clientUuid},
                                       byAddress := old(Value()).byAddress[c.socketAddress := c.clientUuid])
    {
      clientConnectionsAddresses := clientConnectionsAddresses[c.socketAddress := c];
      clientConnections := clientConnections[c.clientUuid := c];
      assert clientConnections.Keys == old(clientConnections).Keys + {c.clientUuid};
      assert Value().byUuid == old(Value()).byUuid + {c.clientUuid};
      UuidsOneMore(old(clientConnectionsAddresses), c.socketAddress, c);
    }

    method UnregisterClientConnection(c: TunnelProxyClientConnection)
      modifies this, c`serverConnection, c`serverUuid, c`socketAddress
      ensures Value() == Detach(old(Value()), c.clientUuid, old(c.socketAddress))
      ensures c.Valid() && c.serverConnection == null && c.socketAddress == NO_ADDRESS
      ensures clientConnections == old(clientConnections) - {c.clientUuid}
      ensures clientConnectionsAddresses == old(clientConnectionsAddresses) - {old(c.socketAddress)}
    {
      clientConnections := clientConnections - {c.clientUuid};
      clientConnectionsAddresses := clientConnectionsAddresses - {c.socketAddress};
      c.socketAddress := NO_ADDRESS;
      c.SetServerConnection(null);
    }
  }

  ghost function Uuids(clients: map<u16, TunnelProxyClientConnection>): map<u16, Uuid> {
    map a | a in clients :: clients[a].clientUuid
  }

  lemma UuidsOneMore(clients: map<u16, TunnelProxyClientConnection>, a: u16, c: TunnelProxyClientConnection)
    ensures Uuids(clients[a := c]) == Uuids(clients)[a := c.clientUuid]
  {
    var left, right := Uuids(clients[a := c]), Uuids(clients)[a := c.clientUuid];
    assert left.Keys == right.Keys;
  }
}
