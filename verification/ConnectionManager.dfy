/** The stateful host: the connection manager and, behind its callbacks, the packet and the channel
    manager (src/connection/ConnectionManager.hpp, src/connection/ConnectionManager.cpp, src/NSFImpl.cpp). */
module ConnectionManagers {
  import opened SequenceNumbers
  import opened PacketAcks
  import opened Bytes
  import opened Packing
  import opened Channels
  import opened Connections
  import PacketManagers
  import ChannelManagers

  /** The log once the peers in `done` delivered what they hold. */
  ghost function LoggedFor(received: map<ConnectionId, seq<Handed>>, channels: map<ConnectionId, PeerState>,
                           done: set<ConnectionId>): map<ConnectionId, seq<Handed>>
    requires done <= channels.Keys
  {
    map id | id in received.Keys + done :: LogOf(received, id) + (if id in done then HandedBy(channels[id]) else [])
  }

  lemma LoggedForNone(received: map<ConnectionId, seq<Handed>>, channels: map<ConnectionId, PeerState>)
    ensures LoggedFor(received, channels, {}) == received
  {
    var logged := LoggedFor(received, channels, {});
    assert logged.Keys == received.Keys + {} == received.Keys;
    forall id | id in received
      ensures logged[id] == received[id]
    {
      assert received[id] + [] == received[id];
    }
  }

  lemma LoggedOneMore(received: map<ConnectionId, seq<Handed>>, channels: map<ConnectionId, PeerState>,
                      done: set<ConnectionId>, id: ConnectionId)
    requires done <= channels.Keys && id in channels && id !in done
    ensures var so := LoggedFor(received, channels, done);
            so[id := LogOf(so, id) + HandedBy(channels[id])] == LoggedFor(received, channels, done + {id})
  {
    assert LogOf(received, id) + [] == LogOf(received, id);
  }

  lemma AllLogged(h: Host, h': Host)
    requires h' == h.(channels := h'.channels, received := LoggedFor(h.received, h.channels, h.channels.Keys))
    requires h'.channels.Keys == h.channels.Keys && forall id | id in h.channels :: h'.channels[id] == Flush(h.channels[id])
    ensures h' == FlushHost(h)
  {
    assert h'.channels == FlushHost(h).channels;
    assert h'.received == FlushHost(h).received;
  }

  class ConnectionManager {
    const isServer: bool
    var connectionIdGenerator: ConnectionId
    var connections: seq<Connection>
    const packetManager: PacketManagers.PacketManager
    const channelManager: ChannelManagers.ChannelManager
    var sent: seq<Outgoing>  // what went to the socket
    var events: seq<Callback>  // what was told to the user
    var received: map<ConnectionId, seq<Handed>>  // what the user was handed, by peer
    ghost var created: nat

    ghost predicate Valid()
      reads this, packetManager, packetManager.Repr, channelManager, channelManager.Repr
    {
      && packetManager.Valid() && channelManager.Valid()
      && this !in packetManager.Repr && this !in channelManager.Repr
      && packetManager.Repr !! channelManager.Repr
      && connectionIdGenerator == Wire(created)
    }

    ghost function State(): Host
      reads this, packetManager, channelManager
    {
      Host(isServer, created, connections, sent, events, received, packetManager.contents, channelManager.contents)
    }

    constructor (isServer: bool, resendAfterMs: nat)
      ensures Valid() && fresh(packetManager.Repr) && fresh(channelManager.Repr)
      ensures State() == NewHost(isServer)
    {
      this.isServer := isServer;
      connectionIdGenerator, connections, sent, events, received, created := 0, [], [], [], map[], 0;
      packetManager := new PacketManagers.PacketManager();
      channelManager := new ChannelManagers.ChannelManager(resendAfterMs);
    }

    // -------------------------------------------------------------------------------------------
    // Lookups and the user's calls

    method GetConnection(address: Address) returns (k: nat)
      ensures k == FindAddress(connections, address)
    {
      k := 0;
      while k < |connections|
        invariant k <= |connections|
        invariant FindAddress(connections, address) == k + FindAddress(connections[k..], address)
      {
        if connections[k].address == address { return; }
        k := k + 1;
      }
    }

    method GetConnectionById(id: ConnectionId) returns (k: nat)
      ensures k == FindId(connections, id)
    {
      k := 0;
      while k < |connections|
        invariant k <= |connections|
        invariant FindId(connections, id) == k + FindId(connections[k..], id)
      {
        if connections[k].id == id { return; }
        k := k + 1;
      }
    }

    method NewConnection(address: Address, state: ConnectionState) returns (c: Connection)
      requires Valid()
      modifies this`connectionIdGenerator, this`created
      ensures Valid() && created == old(created) + 1
      ensures c == Fresh(old(State()), address, state)
    {
      connectionIdGenerator := Wire(connectionIdGenerator + 1);
      created := created + 1;
      c := Connection(connectionIdGenerator, address, state, 0, 0, 0, 0, false, false);
    }

    method Connect(address: Address)
      requires Valid()
      modifies this
      ensures Valid() && State() == Connections.Connect(old(State()), address)
    {
      if isServer { return; }
      var k := GetConnection(address);
      if k < |connections| { return; }
      var c := NewConnection(address, Requesting);
      connections := connections + [c.(attemptsLeft := CONNECTION_ATTEMPTS)];
    }

    method Disconnect(id: ConnectionId)
      requires Valid()
      modifies this`connections
      ensures Valid() && State() == Connections.Disconnect(old(State()), id)
    {
      if id == CONNECTION_ID_INVALID || !isServer {
        for k := 0 to |connections|
          invariant |connections| == |old(connections)|
          invariant connections[..k] == AllDisconnecting(old(connections))[..k] && connections[k..] == old(connections)[k..]
        {
          assert connections[k] == old(connections)[k..][0];
          connections := connections[k := connections[k].(state := Disconnecting)];
        }
      } else {
        var k := GetConnectionById(id);
        if k < |connections| { connections := connections[k := connections[k].(state := Disconnecting)]; }
      }
    }

    // -------------------------------------------------------------------------------------------
    // Callbacks, as NSFImpl wires them

    /** Connections are values in a list; this overwrites one. */
    method Put(i: nat, c: Connection)
      requires Valid() && i < |connections|
      modifies this`connections
      ensures Valid() && State() == old(State()).(connections := old(connections)[i := c])
    {
      connections := connections[i := c];
    }

    /** The user's callback. */
    method Tell(kind: CallbackKind, c: Connection)
      requires Valid()
      modifies this`events
      ensures Valid() && State() == old(State()).(events := old(events) + [Callback(kind, c.id, c.address)])
    {
      events := events + [Callback(kind, c.id, c.address)];
    }

    method AddPeers(id: ConnectionId)
      requires Valid()
      modifies packetManager, channelManager
      ensures Valid() && fresh(packetManager.Repr - old(packetManager.Repr)) && fresh(channelManager.Repr - old(channelManager.Repr))
      ensures packetManager.contents
           == if id in old(packetManager.contents) then old(packetManager.contents)
              else old(packetManager.contents)[id := NewPacketState()]
      ensures channelManager.contents
           == if id in old(channelManager.contents) then old(channelManager.contents)
              else old(channelManager.contents)[id := NEW_PEER_STATE]
    {
      packetManager.OnConnected(id);
      channelManager.OnConnected(id);
    }

    method OnConnected(i: nat)
      requires Valid() && i < |connections|
      modifies this`connections, this`events, packetManager.Repr, channelManager.Repr
      ensures Valid() && fresh(packetManager.Repr - old(packetManager.Repr)) && fresh(channelManager.Repr - old(channelManager.Repr))
      ensures State() == RaiseConnected(old(State()), i)
    {
      Put(i, connections[i].(wasConnected := true));
      AddPeers(connections[i].id);
      Tell(Up, connections[i]);
    }

    method OnDisconnected(i: nat)
      requires Valid() && i < |connections|
      modifies this, packetManager.Repr, channelManager.Repr
      ensures Valid() && fresh(packetManager.Repr - old(packetManager.Repr)) && fresh(channelManager.Repr - old(channelManager.Repr))
      ensures State() == RaiseDisconnected(old(State()), i)
    {
      if connections[i].wasConnected {
        packetManager.OnDisconnected(connections[i].id);
        channelManager.OnDisconnected(connections[i].id);
        Tell(Down, connections[i]);
      }
    }

    method Send(i: nat, kind: Byte)
      requires Valid() && i < |connections|
      modifies this`sent
      ensures Valid() && State() == SendControl(old(State()), i, kind)
    {
      sent := sent + [Outgoing(connections[i].address, PutPacketHeader(PacketHeader(kind, 0, 0, 0)))];
    }

    // -------------------------------------------------------------------------------------------
    // Receiving

    /** A packet of ours that carries messages can be read to its end. */
    static predicate Readable(data: seq<Byte>) {
      |data| >= PACKET_HEADER_SIZE_BYTES && GetEntries(data, PACKET_HEADER_SIZE_BYTES).Some?
    }

    method OnAnswer(i: nat, at: nat)
      requires Valid() && i < |connections|
      modifies this, packetManager.Repr, channelManager.Repr
      ensures Valid() && fresh(packetManager.Repr - old(packetManager.Repr)) && fresh(channelManager.Repr - old(channelManager.Repr))
      ensures State() == Heard(Accepted(old(State()), i), i, at)
    {
      Put(i, connections[i].(state := Connected));
      OnConnected(i);
      Put(i, connections[i].(accepted := true));
      Put(i, connections[i].(heartbeatReceivedMs := at));
    }

    method ReadPacketHeader(id: ConnectionId, header: PacketHeader)
      requires Valid()
      modifies packetManager.Repr, channelManager.Repr
      ensures Valid() && packetManager.Repr == old(packetManager.Repr) && channelManager.Repr == old(channelManager.Repr)
      ensures State() == ReadHeader(old(State()), id, header)
    {
      var acked := packetManager.OnReceivePacket(id, header.sequenceNum, header.ack, header.ackBits);
      if acked != {} { channelManager.OnPacketAcked(id, acked); }
    }

    /** The two callbacks for a user packet; the second reports what is acked to the channel manager. */
    method ReadPacket(id: ConnectionId, data: seq<Byte>)
      requires Valid() && Readable(data)
      modifies packetManager.Repr, channelManager.Repr
      ensures Valid() && packetManager.Repr == old(packetManager.Repr) && channelManager.Repr == old(channelManager.Repr)
      ensures State() == ReadUserPacket(old(State()), id, data)
    {
      ghost var h := State();
      channelManager.OnReadPacket(id, data);
      assert State() == ReadMessages(h, id, data);
      ReadPacketHeader(id, GetPacketHeader(data));
    }

    method OnRequestReceived(i: nat, p: Incoming)
      requires Valid()
      modifies this
      ensures Valid() && State() == OnRequest(old(State()), i, p)
    {
      if i < |connections| || !isServer { return; }
      var c := NewConnection(p.from, Deciding);
      connections := connections + [c.(heartbeatReceivedMs := p.at)];
    }

    method OnHeartbeatReceived(i: nat, at: nat)
      requires Valid()
      modifies this, packetManager.Repr, channelManager.Repr
      ensures Valid() && fresh(packetManager.Repr - old(packetManager.Repr)) && fresh(channelManager.Repr - old(channelManager.Repr))
      ensures State() == OnHeartbeat(old(State()), i, at)
    {
      if i >= |connections| { return; }
      if connections[i].state == Requesting {
        OnAnswer(i, at);
      } else if connections[i].state == Connected {
        connections := connections[i := connections[i].(heartbeatReceivedMs := at)];
      }
    }

    method OnUserPacketReceived(i: nat, p: Incoming)
      requires Valid() && Readable(p.data)
      modifies this, packetManager.Repr, channelManager.Repr
      ensures Valid() && fresh(packetManager.Repr - old(packetManager.Repr)) && fresh(channelManager.Repr - old(channelManager.Repr))
      ensures State() == OnUserPacket(old(State()), i, p)
    {
      if i >= |connections| || connections[i].state != Connected { return; }
      ReadPacket(connections[i].id, p.data);
      connections := connections[i := connections[i].(heartbeatReceivedMs := p.at)];
    }

    method OnReceivePacket(p: Incoming)
      requires Valid() && Readable(p.data)
      modifies this, packetManager.Repr, channelManager.Repr
      ensures Valid() && fresh(packetManager.Repr - old(packetManager.Repr)) && fresh(channelManager.Repr - old(channelManager.Repr))
      ensures State() == Connections.Receive(old(State()), p)
    {
      var i := GetConnection(p.from);
      var kind := GetPacketHeader(p.data).kind;
      if kind == CONNECT_REQUEST {
        OnRequestReceived(i, p);
      } else if kind == CONNECT_ACCEPT {
        if i >= |connections| || connections[i].state != Requesting { return; }
        OnAnswer(i, p.at);
      } else if kind == DISCONNECT {
        if i >= |connections| || connections[i].state == Disconnected { return; }
        connections := connections[i := connections[i].(state := Disconnected)];
      } else if kind == HEARTBEAT {
        OnHeartbeatReceived(i, p.at);
      } else if kind == USER_PACKET {
        OnUserPacketReceived(i, p);
      }
    }

    /** The loop of UdpSocket::receive. */
    method ReceiveBatch(batch: seq<Incoming>)
      requires Valid() && WholeHeaders(batch) && forall p | p in batch :: Readable(p.data)
      modifies this, packetManager.Repr, channelManager.Repr
      ensures Valid() && fresh(packetManager.Repr - old(packetManager.Repr)) && fresh(channelManager.Repr - old(channelManager.Repr))
      ensures State() == Connections.ReceiveAll(old(State()), batch)
    {
      assert batch[..0] == [];
      ghost var h, ps, cs := State(), packetManager.Repr, channelManager.Repr;
      for k := 0 to |batch|
        invariant Valid() && fresh(packetManager.Repr - ps) && fresh(channelManager.Repr - cs)
        invariant State() == Connections.ReceiveAll(h, batch[..k])
      {
        assert batch[..k + 1][..k] == batch[..k] && batch[..k + 1][k] == batch[k];
        OnReceivePacket(batch[k]);
      }
      assert batch[..|batch|] == batch;
    }

    // -------------------------------------------------------------------------------------------
    // Updating

    method ProcessRequesting(i: nat, now: nat)
      requires Valid() && i < |connections|
      modifies this`connections, this`sent
      ensures Valid() && State() == UpdateRequesting(old(State()), i, now)
    {
      var c := connections[i];
      if c.accepted { return; }
      if c.requestSentMs != 0 && Elapsed(now, c.requestSentMs) < TIME_AFTER_RETRY_CONNECT_MS { return; }
      c := c.(attemptsLeft := c.attemptsLeft - 1);
      if c.attemptsLeft <= 0 {
        connections := connections[i := c.(state := Failed)];
      } else {
        connections := connections[i := c.(requestSentMs := now)];
        Send(i, CONNECT_REQUEST);
      }
    }

    method ProcessDeciding(i: nat, now: nat)
      requires Valid() && i < |connections|
      modifies this, packetManager.Repr, channelManager.Repr
      ensures Valid() && fresh(packetManager.Repr - old(packetManager.Repr)) && fresh(channelManager.Repr - old(channelManager.Repr))
      ensures State() == UpdateDeciding(old(State()), i, now)
    {
      Send(i, CONNECT_ACCEPT);
      connections := connections[i := connections[i].(heartbeatSentMs := now, state := Connected)];
      OnConnected(i);
    }

    method ProcessConnected(i: nat, now: nat)
      requires Valid() && i < |connections|
      modifies this`connections, this`sent
      ensures Valid() && State() == UpdateConnected(old(State()), i, now)
    {
      var c := connections[i];
      if Elapsed(now, c.heartbeatSentMs) > TIME_AFTER_SEND_HEARTBEAT_MS {
        Send(i, HEARTBEAT);
        c := c.(heartbeatSentMs := now);
      }
      if Elapsed(now, c.heartbeatReceivedMs) > HEARTBEAT_TIMEOUT_MS {
        c := c.(state := Disconnected);
      }
      connections := connections[i := c];
    }

    method ProcessDisconnecting(i: nat)
      requires Valid() && i < |connections|
      modifies this`connections, this`sent
      ensures Valid() && State() == SetState(SendControl(old(State()), i, DISCONNECT), i, Disconnected)
    {
      Send(i, DISCONNECT);
      connections := connections[i := connections[i].(state := Disconnected)];
    }

    method ProcessState(i: nat, now: nat)
      requires Valid() && i < |connections|
      modifies this, packetManager.Repr, channelManager.Repr
      ensures Valid() && fresh(packetManager.Repr - old(packetManager.Repr)) && fresh(channelManager.Repr - old(channelManager.Repr))
      ensures State() == UpdateState(old(State()), i, now)
    {
      match connections[i].state
      case Requesting => ProcessRequesting(i, now);
      case Deciding => ProcessDeciding(i, now);
      case Connected => ProcessConnected(i, now);
      case Disconnecting => ProcessDisconnecting(i);
      case _ =>
    }

    method UpdateConnections(now: nat)
      requires Valid()
      modifies this, packetManager.Repr, channelManager.Repr
      ensures Valid() && fresh(packetManager.Repr - old(packetManager.Repr)) && fresh(channelManager.Repr - old(channelManager.Repr))
      ensures State() == UpdateUpTo(old(State()), |old(connections)|, now)
    {
      ghost var h, ps, cs := State(), packetManager.Repr, channelManager.Repr;
      for i := 0 to |connections|
        invariant Valid() && fresh(packetManager.Repr - ps) && fresh(channelManager.Repr - cs)
        invariant |connections| == |h.connections|
        invariant State() == UpdateUpTo(h, i, now)
      {
        UpdateConnection(i, now);
      }
    }

    method UpdateConnection(i: nat, now: nat)
      requires Valid() && i < |connections|
      modifies this, packetManager.Repr, channelManager.Repr
      ensures Valid() && fresh(packetManager.Repr - old(packetManager.Repr)) && fresh(channelManager.Repr - old(channelManager.Repr))
      ensures State() == UpdateOne(old(State()), i, now)
    {
      ProcessState(i, now);
      if connections[i].state == Disconnected { OnDisconnected(i); }
    }

    method EraseDisconnected()
      requires Valid()
      modifies this`connections
      ensures Valid() && State() == Connections.EraseDisconnected(old(State()))
    {
      var kept: seq<Connection> := [];
      for i := 0 to |connections|
        invariant kept == Remaining(connections[..i])
      {
        assert connections[..i + 1][..i] == connections[..i];
        if connections[i].state != Disconnected { kept := kept + [connections[i]]; }
      }
      assert connections[..|connections|] == connections;
      connections := kept;
    }

    /** NSFImpl::updateReceive, given the packets that have arrived. */
    method UpdateReceive(batch: seq<Incoming>, now: nat)
      requires Valid() && WholeHeaders(batch) && forall p | p in batch :: Readable(p.data)
      modifies this, packetManager.Repr, channelManager.Repr
      ensures Valid() && fresh(packetManager.Repr - old(packetManager.Repr)) && fresh(channelManager.Repr - old(channelManager.Repr))
      ensures State() == UpdateReceiveAll(old(State()), batch, now)
    {
      ReceiveBatch(batch);
      UpdateConnections(now);
      EraseDisconnected();
      DeliverAll();
    }

    method DeliverAll()
      requires Valid()
      modifies this`received, channelManager.Repr
      ensures Valid() && channelManager.Repr == old(channelManager.Repr)
      ensures State() == FlushHost(old(State()))
    {
      ghost var h := State();
      var receptions := channelManager.UpdateReceive();
      Log(receptions, h.channels, channelManager.order);
      AllLogged(h, State());
    }

    method Log(receptions: seq<Reception>, ghost channels: map<ConnectionId, PeerState>, ghost order: seq<ConnectionId>)
      requires ChannelManagers.Covers(order, channels.Keys)
      requires receptions == ChannelManagers.ReceptionsUpTo(channels, order, |order|)
      modifies this`received
      ensures received == LoggedFor(old(received), channels, channels.Keys)
    {
      ghost var done: set<ConnectionId> := {};
      LoggedForNone(received, channels);
      for k := 0 to |receptions|
        invariant done == set id | id in order[..k]
        invariant received == LoggedFor(old(received), channels, done)
      {
        LoggedOneMore(old(received), channels, done, receptions[k].from);
        done := done + {receptions[k].from};
        OnReceive(receptions[k]);
      }
      assert order[..|order|] == order;
      assert done == channels.Keys;
    }

    /** The user's receive callback, for everything from one peer. */
    method OnReceive(r: Reception)
      modifies this`received
      ensures received == old(received)[r.from := LogOf(old(received), r.from) + r.messages]
    {
      received := received[r.from := LogOf(received, r.from) + r.messages];
    }

    // -------------------------------------------------------------------------------------------
    // Sending

    ghost function ClockAt(now: nat): Clock
      reads this, channelManager
    {
      Clock(now, channelManager.timeAfterResendReliableMessageMs)
    }

    method NumberPacket(id: ConnectionId) returns (header: PacketHeader)
      requires Valid()
      modifies packetManager.Repr
      ensures Valid() && packetManager.Repr == old(packetManager.Repr)
      ensures State() == Numbered(old(State()), id) && header == NextHeader(old(State()), id)
    {
      var s, ack, ackBits := packetManager.OnSendPacket(id);
      header := PacketHeader(USER_PACKET, s, ack, ackBits);
    }

    /** One round of the loop: a packet is numbered, filled and sent. */
    method SendPacket(i: nat, now: nat)
      requires Valid() && i < |connections| && HasData(State(), i)
      modifies this`sent, packetManager.Repr, channelManager.Repr
      ensures Valid() && packetManager.Repr == old(packetManager.Repr) && channelManager.Repr == old(channelManager.Repr)
      ensures State() == SendPass(old(State()), i, ClockAt(now))
    {
      var id := connections[i].id;
      var header := NumberPacket(id);
      var data := PutPacketHeader(header);
      PacketHeaderRoundTrip(header, []);
      data := channelManager.OnWritePacket(id, header.sequenceNum, data, now);
      sent := sent + [Outgoing(connections[i].address, data)];
    }

    method SendRound(i: nat, now: nat) returns (more: bool)
      requires Valid() && i < |connections| && Ends(State(), i, ClockAt(now)) && HasData(State(), i)
      modifies this`sent, packetManager.Repr, channelManager.Repr
      ensures Valid() && packetManager.Repr == old(packetManager.Repr) && channelManager.Repr == old(channelManager.Repr)
      ensures Ends(State(), i, ClockAt(now)) && more == HasData(State(), i)
      ensures SendAll(State(), i, ClockAt(now)) == SendAll(old(State()), i, ClockAt(now))
      ensures Less(PendingOf(State(), i), PendingOf(old(State()), i), ClockAt(now))
    {
      PassShrinks(State(), i, ClockAt(now));
      SendPacket(i, now);
      more := channelManager.HasDataToWrite(connections[i].id);
    }

    /** The loop of updateSend for one connection: packets go out until its peer has nothing to send. */
    method SendPackets(i: nat, now: nat) returns (didSend: bool)
      requires Valid() && i < |connections| && Ends(State(), i, ClockAt(now))
      modifies this`sent, packetManager.Repr, channelManager.Repr
      ensures Valid() && packetManager.Repr == old(packetManager.Repr) && channelManager.Repr == old(channelManager.Repr)
      ensures State() == SendAll(old(State()), i, ClockAt(now)) && didSend == HasData(old(State()), i)
    {
      ghost var h, ps, cs := State(), packetManager.Repr, channelManager.Repr;
      didSend := false;
      var more := channelManager.HasDataToWrite(connections[i].id);
      while more
        invariant Valid() && packetManager.Repr == ps && channelManager.Repr == cs
        invariant Ends(State(), i, ClockAt(now)) && more == HasData(State(), i) && (didSend || more) == HasData(h, i)
        invariant SendAll(State(), i, ClockAt(now)) == SendAll(h, i, ClockAt(now))
        decreases DueCount(PendingOf(State(), i).reliable, ClockAt(now)), |PendingOf(State(), i).unreliable|,
                  PendingOf(State(), i).hasReliable
      {
        more := SendRound(i, now);
        didSend := true;
      }
    }

    method SendFrameTo(i: nat, now: nat)
      requires Valid() && i < |connections| && Ends(State(), i, ClockAt(now))
      modifies this`sent, this`connections, packetManager.Repr, channelManager.Repr
      ensures Valid() && packetManager.Repr == old(packetManager.Repr) && channelManager.Repr == old(channelManager.Repr)
      ensures State() == SendFrame(old(State()), i, old(ClockAt(now)))
    {
      var didSend := SendPackets(i, now);
      if didSend {
        connections := connections[i := connections[i].(heartbeatSentMs := now)];
      }
    }

    /** Called when the loop of every connection ends; otherwise the call does not return. */
    method UpdateSend(now: nat)
      requires Valid() && AllEnd(State(), ClockAt(now))
      modifies this`sent, this`connections, packetManager.Repr, channelManager.Repr
      ensures Valid() && packetManager.Repr == old(packetManager.Repr) && channelManager.Repr == old(channelManager.Repr)
      ensures State() == Connections.UpdateSend(old(State()), old(ClockAt(now)))
    {
      ghost var h, c, ps, cs := State(), ClockAt(now), packetManager.Repr, channelManager.Repr;
      for i := 0 to |connections|
        invariant Valid() && packetManager.Repr == ps && channelManager.Repr == cs
        invariant |connections| == |h.connections|
        invariant State() == SendUpTo(h, i, c)
      {
        SendFrameTo(i, now);
      }
    }

    /** NSFImpl::send */
    method SendMessage(target: Target, message: Payload, isReliable: bool)
      requires Valid()
      modifies channelManager.Repr
      ensures Valid() && channelManager.Repr == old(channelManager.Repr)
      ensures State() == Queue(old(State()), target, message, isReliable)
    {
      channelManager.Send(target, message, isReliable);
      assert channelManager.contents == Queue(old(State()), target, message, isReliable).channels;
    }
  }
}
