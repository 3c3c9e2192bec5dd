/** What has passed between two hosts, read off a run of the world: which messages one accepted for the
    other, the reliable ones with their unbounded numbers, which packets it read from the other, and whether
    what arrived did so under the conditions on which order and completeness rest.  What a user was handed
    is not told here; that is in the log of the host. */
module Stories {
  import opened SequenceNumbers
  import opened PacketAcks
  import opened Bytes
  import opened Packing
  import opened Channels
  import opened Connections
  import opened Lifecycle
  import opened Handshake
  import OrderedChannel
  import S = Session

  predicate IsUserPacket(data: seq<Byte>) {
    |data| >= PACKET_HEADER_SIZE_BYTES && Kind(data) == USER_PACKET
  }

  /** The user packets sent to one address, oldest first. */
  function UserPackets(sent: seq<Outgoing>, to: Address): seq<seq<Byte>> {
    if sent == [] then []
    else
      var last := sent[|sent| - 1];
      UserPackets(sent[..|sent| - 1], to) + (if last.to == to && IsUserPacket(last.data) then [last.data] else [])
  }

  /** There is a live connection with this address. */
  predicate IsUp(h: Host, to: Address) {
    var i := FindAddress(h.connections, to);
    i < |h.connections| && h.connections[i].wasConnected
  }

  function IdOf(h: Host, to: Address): ConnectionId
    requires IsUp(h, to)
  {
    h.connections[FindAddress(h.connections, to)].id
  }

  /** A host's dealings with one address: the reliable messages it accepted for it (their index is their
      number), the numbers of those still queued, those that each user packet to it carried, and those
      written so far; whether no header read from it reported packet 0 while a message was queued unwritten;
      whether every user packet read from it met the arrival condition; whether the first reliable message
      read from it, if any, had sequence number 0; the unreliable messages it accepted for the address; and
      the user packets it read from there, in order. */
  datatype Story = Story(
    accepted: seq<Payload>, queued: seq<nat>, packets: seq<seq<nat>>, written: set<nat>, intact: bool,
    safe: bool, zeroFirst: bool, acceptedUnreliable: seq<Payload>, taken: seq<seq<Byte>>)

  function NoStory(): Story {
    Story([], [], [], {}, true, true, true, [], [])
  }

  // ---------------------------------------------------------------------------------------------
  // What the calls of a host add

  function OnQueue(h: Host, target: Target, message: Payload, isReliable: bool, to: Address, t: Story): Story {
    if |message| > MAX_MESSAGE_SIZE_BYTES || !IsUp(h, to) || !Addressed(target, IdOf(h, to)) then t
    else if isReliable then t.(accepted := t.accepted + [message], queued := t.queued + [|t.accepted|])
    else t.(acceptedUnreliable := t.acceptedUnreliable + [message])
  }

  function OnRound(h: Host, i: nat, c: Clock, to: Address, t: Story): Story
    requires i < |h.connections| && HasData(h, i)
  {
    if h.connections[i].address != to then t
    else
      var numbers := S.NumbersTaken(h.channels[h.connections[i].id].reliable, t.queued, c);
      t.(packets := t.packets + [numbers], written := t.written + S.SetOf(numbers))
  }

  /** The sequence number of the first reliable message. */
  function FirstReliable(entries: seq<Entry>): Option<SequenceNumber> {
    if entries == [] then None
    else if entries[0].channelId == RELIABLE_CHANNEL_ID then Some(entries[0].sequenceNum)
    else FirstReliable(entries[1..])
  }

  /** The channel's inbox, with all that it ever delivered. */
  function InboxWith(handed: seq<Payload>, peer: PeerState): OrderedChannel.Inbox {
    OrderedChannel.Inbox(peer.last, peer.store, handed + peer.reliableToDeliver)
  }

  /** The packet is one of the other end's, and each of its reliable messages meets the arrival condition
      in this inbox when it comes. */
  predicate ArrivesSafely(data: seq<Byte>, box: OrderedChannel.Inbox, far: Story, farPackets: seq<seq<Byte>>) {
    exists n | 0 <= n < |farPackets| :: ArrivesSafelyAs(data, n, box, far, farPackets)
  }

  predicate ArrivesSafelyAs(data: seq<Byte>, n: nat, box: OrderedChannel.Inbox, far: Story, farPackets: seq<seq<Byte>>)
    requires n < |farPackets|
  {
    farPackets[n] == data && n < |far.packets| && S.AllSafe(box, far.packets[n], far.accepted)
  }

  predicate SomeUnwritten(queued: seq<nat>, written: set<nat>) {
    exists k | k in queued :: k !in written
  }

  /** A user packet is read; the user has been handed the reliable messages `handed` so far, `far` is the
      other end's story and `farPackets` what it sent here. */
  function OnRead(peer: PeerState, acks: PacketState, handed: seq<Payload>, data: seq<Byte>, t: Story, far: Story, farPackets: seq<seq<Byte>>): Story
    requires |data| >= PACKET_HEADER_SIZE_BYTES
  {
    var header := GetPacketHeader(data);
    var entries := GetEntries(data, PACKET_HEADER_SIZE_BYTES);
    var report := ReceiveHeader(acks, header.sequenceNum, header.ack, header.ackBits).1;
    var box := InboxWith(handed, peer);
    t.(queued := S.NumbersLeft(peer.reliable, t.queued, t.written, report).0,
       intact := t.intact && !(0 in report && SomeUnwritten(t.queued, t.written)),
       safe := t.safe && ArrivesSafely(data, box, far, farPackets),
       zeroFirst := t.zeroFirst && (box.queue != [] || entries.None? || FirstReliable(entries.value) in {None, Some(0)}),
       taken := t.taken + [data])
  }

  /** A packet arrives: only a user packet on a connection that is CONNECTED is read. */
  function OnArrival(h: Host, p: Incoming, to: Address, t: Story, far: Story, farPackets: seq<seq<Byte>>): Story {
    var i := FindAddress(h.connections, to);
    if p.from == to && IsUserPacket(p.data) && i < |h.connections| && h.connections[i].state.Connected? &&
       InTables(h, h.connections[i].id)
    then
      var id := h.connections[i].id;
      OnRead(h.channels[id], h.packets[id], Payloads(LogOf(h.received, id), true), p.data, t, far, farPackets)
    else t
  }

  function OnArrivals(h: Host, batch: seq<Incoming>, to: Address, t: Story, far: Story, farPackets: seq<seq<Byte>>): Story
    requires WholeHeaders(batch)
  {
    if batch == [] then t
    else
      var most := batch[..|batch| - 1];
      OnArrival(ReceiveAll(h, most), batch[|batch| - 1], to, OnArrivals(h, most, to, t, far, farPackets), far, farPackets)
  }

  function OnCall(h: Host, call: Call, to: Address, t: Story, far: Story, farPackets: seq<seq<Byte>>): Story {
    match call
    case Receiving(batch, _) =>
      if WholeHeaders(batch) then OnArrivals(h, batch, to, t, far, farPackets) else t
    case Sending(target, message, isReliable) => OnQueue(h, target, message, isReliable, to, t)
    case SendRound(i, c) => if i < |h.connections| && HasData(h, i) then OnRound(h, i, c, to, t) else t
    case _ => t
  }

  // ---------------------------------------------------------------------------------------------
  // Over a run of the world

  predicate Performed(w: World, s: Step) {
    s.who in w && (s.call.Receiving? ==> Deliverable(w, s.who, s.call.batch))
  }

  function PacketsFor(w: World, from: Address, to: Address): seq<seq<Byte>> {
    if from in w then UserPackets(w[from].sent, to) else []
  }

  /** The dealings of the host at `at` with the address `to`. */
  function StoryOf(w0: World, steps: seq<Step>, at: Address, to: Address): Story
    decreases |steps|
  {
    if steps == [] then NoStory()
    else
      var most, s := steps[..|steps| - 1], steps[|steps| - 1];
      var w, t := Play(w0, most), StoryOf(w0, most, at, to);
      if s.who == at && Performed(w, s)
      then OnCall(w[at], s.call, to, t, StoryOf(w0, most, to, at), PacketsFor(w, to, at))
      else t
  }
}
