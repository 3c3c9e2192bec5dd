/** What the operations of one host do to its connections and peer tables
    (src/connection/ConnectionManager.cpp, wired as in src/NSFImpl.cpp). */
module Connections {
  import opened SequenceNumbers
  import opened PacketAcks
  import opened Bytes
  import opened Packing
  import opened Channels

  const CONNECTION_ID_INVALID: ConnectionId := 65535

  const TIME_AFTER_RETRY_CONNECT_MS := 1500
  const TIME_AFTER_SEND_HEARTBEAT_MS := 1000
  const HEARTBEAT_TIMEOUT_MS := 5000

  /** Times are compared by a 32-bit unsigned subtraction. */
  function Elapsed(now: nat, since: nat): nat {
    (now - since) % 0x1_0000_0000
  }

  const CONNECTION_ATTEMPTS := 5

  datatype Address = Address(ip: nat, port: nat)

  datatype ConnectionState = Requesting | Deciding | Connected | Failed | Disconnecting | Disconnected

  datatype Connection = Connection(
    id: ConnectionId, address: Address, state: ConnectionState, requestSentMs: nat, attemptsLeft: int,
    heartbeatSentMs: nat, heartbeatReceivedMs: nat, accepted: bool, wasConnected: bool)

  datatype CallbackKind = Up | Down

  /** A call of the user's onConnected or onDisconnected callback, which gets the id; the address is kept for
      the record. */
  datatype Callback = Callback(kind: CallbackKind, id: ConnectionId, address: Address)

  datatype Outgoing = Outgoing(to: Address, data: seq<Byte>)

  datatype Incoming = Incoming(from: Address, data: seq<Byte>, at: nat)

  /** `created` counts the connections ever made; m_connectionIdGenerator is its wire value.  `packets`
      and `channels` are the peer lists of the packet and the channel manager, by id; `sent` is what went
      to the socket, `events` what was told to the user and `received` the messages that the user was
      handed from each peer, oldest first. */
  datatype Host = Host(
    isServer: bool, created: nat, connections: seq<Connection>,
    sent: seq<Outgoing>, events: seq<Callback>, received: map<ConnectionId, seq<Handed>>,
    packets: map<ConnectionId, PacketState>, channels: map<ConnectionId, PeerState>)

  function NewHost(isServer: bool): Host {
    Host(isServer, 0, [], [], [], map[], map[], map[])
  }

  /** What the user was handed from the peer with this id. */
  function LogOf(received: map<ConnectionId, seq<Handed>>, id: ConnectionId): seq<Handed> {
    if id in received then received[id] else []
  }

  // ---------------------------------------------------------------------------------------------
  // Lookups

  /** getConnection by address: the first index, or the number of connections. */
  function FindAddress(cs: seq<Connection>, address: Address): (i: nat)
    ensures i <= |cs|
    ensures i < |cs| ==> cs[i].address == address
    ensures forall j | 0 <= j < i :: cs[j].address != address
  {
    if cs == [] || cs[0].address == address then 0 else 1 + FindAddress(cs[1..], address)
  }

  function FindId(cs: seq<Connection>, id: ConnectionId): (i: nat)
    ensures i <= |cs|
    ensures i < |cs| ==> cs[i].id == id
    ensures forall j | 0 <= j < i :: cs[j].id != id
  {
    if cs == [] || cs[0].id == id then 0 else 1 + FindId(cs[1..], id)
  }

  // ---------------------------------------------------------------------------------------------
  // The user's calls

  function Fresh(h: Host, address: Address, state: ConnectionState): Connection {
    Connection(Wire(h.created + 1), address, state, 0, 0, 0, 0, false, false)
  }

  function Connect(h: Host, address: Address): Host {
    if h.isServer || FindAddress(h.connections, address) < |h.connections| then h
    else
      h.(created := h.created + 1,
         connections := h.connections + [Fresh(h, address, Requesting).(attemptsLeft := CONNECTION_ATTEMPTS)])
  }

  function AllDisconnecting(cs: seq<Connection>): seq<Connection> {
    seq(|cs|, i requires 0 <= i < |cs| => cs[i].(state := Disconnecting))
  }

  function Disconnect(h: Host, id: ConnectionId): Host {
    if id == CONNECTION_ID_INVALID || !h.isServer then h.(connections := AllDisconnecting(h.connections))
    else
      var i := FindId(h.connections, id);
      if i == |h.connections| then h else SetState(h, i, Disconnecting)
  }

  function SetState(h: Host, i: nat, state: ConnectionState): Host
    requires i < |h.connections|
  {
    h.(connections := h.connections[i := h.connections[i].(state := state)])
  }

  // ---------------------------------------------------------------------------------------------
  // Callbacks

  /** The connection is up: both managers get a peer, then the user is told. */
  function RaiseConnected(h: Host, i: nat): Host
    requires i < |h.connections|
  {
    var c := h.connections[i];
    h.(connections := h.connections[i := c.(wasConnected := true)],
       packets := if c.id in h.packets then h.packets else h.packets[c.id := NewPacketState()],
       channels := if c.id in h.channels then h.channels else h.channels[c.id := NEW_PEER_STATE],
       events := h.events + [Callback(Up, c.id, c.address)])
  }

  /** Only a connection that was up is reported as down. */
  function RaiseDisconnected(h: Host, i: nat): Host
    requires i < |h.connections|
  {
    var c := h.connections[i];
    if !c.wasConnected then h
    else
      h.(packets := h.packets - {c.id}, channels := h.channels - {c.id},
         events := h.events + [Callback(Down, c.id, c.address)])
  }

  function Kind(data: seq<Byte>): Byte
    requires |data| >= PACKET_HEADER_SIZE_BYTES
  {
    GetPacketHeader(data).kind
  }

  function ControlPacket(kind: Byte): seq<Byte> {
    PutPacketHeader(PacketHeader(kind, 0, 0, 0))
  }

  /** The packets without messages, byte by byte. */
  lemma ControlBytes()
    ensures ControlPacket(CONNECT_REQUEST) == [1, 0, 0, 0, 0, 0, 0, 0, 0]
    ensures ControlPacket(CONNECT_ACCEPT) == [2, 0, 0, 0, 0, 0, 0, 0, 0]
    ensures ControlPacket(DISCONNECT) == [3, 0, 0, 0, 0, 0, 0, 0, 0]
    ensures ControlPacket(HEARTBEAT) == [4, 0, 0, 0, 0, 0, 0, 0, 0]
  {
    PacketHeaderBytes(PacketHeader(CONNECT_REQUEST, 0, 0, 0));
    PacketHeaderBytes(PacketHeader(CONNECT_ACCEPT, 0, 0, 0));
    PacketHeaderBytes(PacketHeader(DISCONNECT, 0, 0, 0));
    PacketHeaderBytes(PacketHeader(HEARTBEAT, 0, 0, 0));
  }

  lemma ControlKind(kind: Byte)
    ensures |ControlPacket(kind)| == PACKET_HEADER_SIZE_BYTES && Kind(ControlPacket(kind)) == kind
  {
  }

  function SendControl(h: Host, i: nat, kind: Byte): Host
    requires i < |h.connections|
  {
    h.(sent := h.sent + [Outgoing(h.connections[i].address, ControlPacket(kind))])
  }

  // ---------------------------------------------------------------------------------------------
  // Receiving

  function Accepted(h: Host, i: nat): Host
    requires i < |h.connections|
  {
    var h1 := RaiseConnected(SetState(h, i, Connected), i);
    h1.(connections := h1.connections[i := h1.connections[i].(accepted := true)])
  }

  function Heard(h: Host, i: nat, now: nat): Host
    requires i < |h.connections|
  {
    h.(connections := h.connections[i := h.connections[i].(heartbeatReceivedMs := now)])
  }

  /** The packet's messages go to the channel peer. */
  function ReadMessages(h: Host, id: ConnectionId, data: seq<Byte>): Host {
    var entries := GetEntries(data, PACKET_HEADER_SIZE_BYTES);
    if id in h.channels && entries.Some?
    then h.(channels := h.channels[id := ReceiveEntries(h.channels[id], entries.value)]) else h
  }

  /** The packet's header goes to the packet peer, and what that reports back to the channel peer. */
  function ReadHeader(h: Host, id: ConnectionId, header: PacketHeader): Host {
    if id !in h.packets then h
    else
      var r := ReceiveHeader(h.packets[id], header.sequenceNum, header.ack, header.ackBits);
      var h1 := h.(packets := h.packets[id := r.0]);
      if r.1 == {} || id !in h1.channels then h1
      else h1.(channels := h1.channels[id := RemoveAcked(h1.channels[id], r.1)])
  }

  function ReadUserPacket(h: Host, id: ConnectionId, data: seq<Byte>): (r: Host)
    requires |data| >= PACKET_HEADER_SIZE_BYTES
    ensures r == h.(packets := r.packets, channels := r.channels)
  {
    ReadHeader(ReadMessages(h, id, data), id, GetPacketHeader(data))
  }

  function OnRequest(h: Host, i: nat, p: Incoming): Host {
    if i < |h.connections| || !h.isServer then h
    else
      h.(created := h.created + 1,
         connections := h.connections + [Fresh(h, p.from, Deciding).(heartbeatReceivedMs := p.at)])
  }

  function OnAccept(h: Host, i: nat, at: nat): Host {
    if i >= |h.connections| || !h.connections[i].state.Requesting? then h
    else Heard(Accepted(h, i), i, at)
  }

  function OnDisconnect(h: Host, i: nat): Host {
    if i >= |h.connections| || h.connections[i].state.Disconnected? then h
    else SetState(h, i, Disconnected)
  }

  function OnHeartbeat(h: Host, i: nat, at: nat): Host {
    if i >= |h.connections| then h
    else if h.connections[i].state.Requesting? then Heard(Accepted(h, i), i, at)
    else if !h.connections[i].state.Connected? then h
    else Heard(h, i, at)
  }

  function OnUserPacket(h: Host, i: nat, p: Incoming): Host
    requires |p.data| >= PACKET_HEADER_SIZE_BYTES
  {
    if i >= |h.connections| || !h.connections[i].state.Connected? then h
    else Heard(ReadUserPacket(h, h.connections[i].id, p.data), i, p.at)
  }

  /** ConnectionManager::onReceivePacket */
  function Receive(h: Host, p: Incoming): (r: Host)
    requires |p.data| >= PACKET_HEADER_SIZE_BYTES
    ensures r == h.(created := r.created, connections := r.connections, events := r.events,
                    packets := r.packets, channels := r.channels)
    ensures r.created >= h.created
  {
    var kind := GetPacketHeader(p.data).kind;
    var i := FindAddress(h.connections, p.from);
    if kind == CONNECT_REQUEST then OnRequest(h, i, p)
    else if kind == CONNECT_ACCEPT then OnAccept(h, i, p.at)
    else if kind == DISCONNECT then OnDisconnect(h, i)
    else if kind == HEARTBEAT then OnHeartbeat(h, i, p.at)
    else if kind == USER_PACKET then OnUserPacket(h, i, p)
    else h
  }

  predicate WholeHeaders(batch: seq<Incoming>) {
    forall p | p in batch :: |p.data| >= PACKET_HEADER_SIZE_BYTES
  }

  function ReceiveAll(h: Host, batch: seq<Incoming>): Host
    requires WholeHeaders(batch)
  {
    if batch == [] then h
    else Receive(ReceiveAll(h, batch[..|batch| - 1]), batch[|batch| - 1])
  }

  // ---------------------------------------------------------------------------------------------
  // Updating

  function UpdateRequesting(h: Host, i: nat, now: nat): Host
    requires i < |h.connections|
  {
    var c := h.connections[i];
    if c.accepted || (c.requestSentMs != 0 && Elapsed(now, c.requestSentMs) < TIME_AFTER_RETRY_CONNECT_MS) then h
    else if c.attemptsLeft - 1 <= 0 then
      h.(connections := h.connections[i := c.(attemptsLeft := c.attemptsLeft - 1, state := Failed)])
    else
      SendControl(h.(connections := h.connections[i := c.(attemptsLeft := c.attemptsLeft - 1, requestSentMs := now)]),
                  i, CONNECT_REQUEST)
  }

  function UpdateDeciding(h: Host, i: nat, now: nat): Host
    requires i < |h.connections|
  {
    var h1 := SendControl(h, i, CONNECT_ACCEPT);
    RaiseConnected(h1.(connections := h1.connections[i := h1.connections[i].(heartbeatSentMs := now, state := Connected)]), i)
  }

  function UpdateConnected(h: Host, i: nat, now: nat): Host
    requires i < |h.connections|
  {
    var c := h.connections[i];
    var h1 := if Elapsed(now, c.heartbeatSentMs) > TIME_AFTER_SEND_HEARTBEAT_MS
              then SendControl(h, i, HEARTBEAT).(connections := h.connections[i := c.(heartbeatSentMs := now)]) else h;
    if Elapsed(now, c.heartbeatReceivedMs) > HEARTBEAT_TIMEOUT_MS then SetState(h1, i, Disconnected) else h1
  }

  /** The switch of updateConnections. */
  function UpdateState(h: Host, i: nat, now: nat): (r: Host)
    requires i < |h.connections|
    ensures |r.connections| == |h.connections| && r.created == h.created
  {
    match h.connections[i].state
    case Requesting => UpdateRequesting(h, i, now)
    case Deciding => UpdateDeciding(h, i, now)
    case Connected => UpdateConnected(h, i, now)
    case Disconnecting => SetState(SendControl(h, i, DISCONNECT), i, Disconnected)
    case _ => h
  }

  function FinishRound(h: Host, i: nat): (r: Host)
    requires i < |h.connections|
    ensures r.connections == h.connections && r.created == h.created
  {
    if h.connections[i].state.Disconnected? then RaiseDisconnected(h, i) else h
  }

  /** One round of the loop in updateConnections. */
  function UpdateOne(h: Host, i: nat, now: nat): (r: Host)
    requires i < |h.connections|
    ensures |r.connections| == |h.connections| && r.created == h.created
  {
    FinishRound(UpdateState(h, i, now), i)
  }

  function UpdateUpTo(h: Host, k: nat, now: nat): (r: Host)
    requires k <= |h.connections|
    ensures |r.connections| == |h.connections| && r.created == h.created
  {
    if k == 0 then h else UpdateOne(UpdateUpTo(h, k - 1, now), k - 1, now)
  }

  function Remaining(cs: seq<Connection>): seq<Connection> {
    if cs == [] then []
    else Remaining(cs[..|cs| - 1]) + (if cs[|cs| - 1].state.Disconnected? then [] else [cs[|cs| - 1]])
  }

  function EraseDisconnected(h: Host): Host {
    h.(connections := Remaining(h.connections))
  }

  /** ConnectionManager::updateReceive */
  function UpdateReceive(h: Host, batch: seq<Incoming>, now: nat): Host
    requires WholeHeaders(batch)
  {
    var h1 := ReceiveAll(h, batch);
    EraseDisconnected(UpdateUpTo(h1, |h1.connections|, now))
  }

  /** NSFImpl::updateReceive: then every peer delivers what it holds. */
  function UpdateReceiveAll(h: Host, batch: seq<Incoming>, now: nat): Host
    requires WholeHeaders(batch)
  {
    FlushHost(UpdateReceive(h, batch, now))
  }

  function FlushHost(h: Host): Host {
    h.(channels := map id | id in h.channels :: Flush(h.channels[id]),
       received := map id | id in h.received.Keys + h.channels.Keys ::
         LogOf(h.received, id) + (if id in h.channels then HandedBy(h.channels[id]) else []))
  }

  // ---------------------------------------------------------------------------------------------
  // Sending

  function Queue(h: Host, target: Target, message: Payload, isReliable: bool): Host {
    h.(channels := map id | id in h.channels :: Offered(h.channels[id], id, target, message, isReliable))
  }

  /** The header fields of the next packet; all zero without a packet peer. */
  function NextHeader(h: Host, id: ConnectionId): PacketHeader {
    if id in h.packets then
      var r := SendPacket(h.packets[id]);
      PacketHeader(USER_PACKET, r.1, r.2, r.3)
    else PacketHeader(USER_PACKET, 0, 0, 0)
  }

  function Numbered(h: Host, id: ConnectionId): Host {
    h.(packets := if id in h.packets then h.packets[id := SendPacket(h.packets[id]).0] else h.packets)
  }

  /** One round of the loop that sends to a connection. */
  function SendPass(h: Host, i: nat, c: Clock): Host
    requires i < |h.connections| && h.connections[i].id in h.channels
  {
    var id := h.connections[i].id;
    var header := NextHeader(h, id);
    var w := WritePacket(h.channels[id], PACKET_HEADER_SIZE_BYTES, header.sequenceNum, c);
    Numbered(h, id).(channels := h.channels[id := w.st],
                     sent := h.sent + [Outgoing(h.connections[i].address, PutPacket(header, w.entries))])
  }

  predicate HasData(h: Host, i: nat)
    requires i < |h.connections|
  {
    h.connections[i].id in h.channels && HasDataToSend(h.channels[h.connections[i].id])
  }

  function PendingOf(h: Host, i: nat): PeerState
    requires i < |h.connections|
  {
    if h.connections[i].id in h.channels then h.channels[h.connections[i].id] else NEW_PEER_STATE
  }

  /** The loop of this connection does not go on for ever. */
  predicate Ends(h: Host, i: nat, c: Clock)
    requires i < |h.connections|
  {
    c.resendAfter > 0 && LoopEnds(PendingOf(h, i), c)
  }

  /** No connection's loop does. */
  predicate AllEnd(h: Host, c: Clock) {
    c.resendAfter > 0 && forall id | id in h.channels :: LoopEnds(h.channels[id], c)
  }

  lemma PassShrinks(h: Host, i: nat, c: Clock)
    requires i < |h.connections| && Ends(h, i, c) && HasData(h, i)
    ensures Ends(SendPass(h, i, c), i, c) && Less(PendingOf(SendPass(h, i, c), i), PendingOf(h, i), c)
    ensures AllEnd(h, c) ==> AllEnd(SendPass(h, i, c), c)
  {
    var st := h.channels[h.connections[i].id];
    var packet := NextHeader(h, h.connections[i].id).sequenceNum;
    PassKeepsLoopEnds(st, packet, c);
  }

  /** Only the connection's channel peer decides when the loop ends. */
  function SendAll(h: Host, i: nat, c: Clock): (r: Host)
    requires i < |h.connections| && Ends(h, i, c)
    ensures r.connections == h.connections && (AllEnd(h, c) ==> AllEnd(r, c))
    decreases DueCount(PendingOf(h, i).reliable, c), |PendingOf(h, i).unreliable|, PendingOf(h, i).hasReliable
  {
    if !HasData(h, i) then h
    else
      PassShrinks(h, i, c);
      SendAll(SendPass(h, i, c), i, c)
  }

  function MarkSent(h: Host, i: nat, now: nat): Host
    requires i < |h.connections|
  {
    h.(connections := h.connections[i := h.connections[i].(heartbeatSentMs := now)])
  }

  function SendFrame(h: Host, i: nat, c: Clock): (r: Host)
    requires i < |h.connections| && Ends(h, i, c)
    ensures |r.connections| == |h.connections| && (AllEnd(h, c) ==> AllEnd(r, c))
  {
    if HasData(h, i) then MarkSent(SendAll(h, i, c), i, c.now) else h
  }

  function SendUpTo(h: Host, k: nat, c: Clock): (r: Host)
    requires k <= |h.connections| && AllEnd(h, c)
    ensures |r.connections| == |h.connections| && AllEnd(r, c)
  {
    if k == 0 then h else SendFrame(SendUpTo(h, k - 1, c), k - 1, c)
  }

  /** ConnectionManager::updateSend, when the loop of every connection ends; otherwise it does not return. */
  function UpdateSend(h: Host, c: Clock): Host
    requires AllEnd(h, c)
  {
    SendUpTo(h, |h.connections|, c)
  }
}
