/** What the operations of a channel Peer do to its state (src/channel/Peer.cpp,
    src/channel/ChannelManager.cpp:44-70 and 163-212). */
module Channels {
  import opened SequenceNumbers
  import opened Bytes
  import opened Packing
  import OrderedChannel

  /** Peer::send: a message over 1336 bytes is refused. */
  function Accept(st: PeerState, message: Payload, isReliable: bool): PeerState {
    if |message| > MAX_MESSAGE_SIZE_BYTES then st
    else if isReliable then
      st.(hasReliable := true,
          reliable := st.reliable + [ReliableMessage(message, 0, 0, st.generator)],
          generator := Wire(st.generator + 1))
    else st.(unreliable := st.unreliable + [message])
  }

  /** Who a message is for (MessageInfo::Type). */
  datatype Target = Unicast(id: ConnectionId) | Broadcast | ExcludeBroadcast(id: ConnectionId)

  predicate Addressed(target: Target, id: ConnectionId) {
    match target
    case Broadcast => true
    case ExcludeBroadcast(other) => id != other
    case Unicast(one) => id == one
  }

  /** What a send call does to the peer with this id. */
  function Offered(st: PeerState, id: ConnectionId, target: Target, message: Payload, isReliable: bool): PeerState {
    if Addressed(target, id) then Accept(st, message, isReliable) else st
  }

  function InboxOf(st: PeerState): OrderedChannel.Inbox {
    OrderedChannel.Inbox(st.last, st.store, st.reliableToDeliver)
  }

  /** Peer::onMessageReceived: other channel numbers are ignored. */
  function ReceiveEntry(st: PeerState, e: Entry): PeerState {
    if e.channelId == UNRELIABLE_CHANNEL_ID then
      st.(unreliableToDeliver := st.unreliableToDeliver + [e.payload])
    else if e.channelId == RELIABLE_CHANNEL_ID then
      var box := OrderedChannel.Receive(InboxOf(st), e.sequenceNum, e.payload);
      st.(last := box.last, store := box.store, reliableToDeliver := box.queue)
    else st
  }

  function ReceiveEntries(st: PeerState, entries: seq<Entry>): PeerState
    decreases |entries|
  {
    if entries == [] then st else ReceiveEntries(ReceiveEntry(st, entries[0]), entries[1..])
  }

  /** The queue positions, from `i` on, of the messages whose last packet is not among the acked. */
  function Kept(q: seq<ReliableMessage>, acked: set<SequenceNumber>, i: nat): (kept: seq<nat>)
    requires i <= |q|
    ensures forall a | 0 <= a < |kept| :: i <= kept[a] < |q| && q[kept[a]].packetSequenceNum !in acked
    ensures forall j | i <= j < |q| && q[j].packetSequenceNum !in acked :: j in kept
    ensures forall a, b | 0 <= a < b < |kept| :: kept[a] < kept[b]
    decreases |q| - i
  {
    if i == |q| then []
    else
      var rest := Kept(q, acked, i + 1);
      if q[i].packetSequenceNum in acked then rest else [i] + rest
  }

  function Select<T>(s: seq<T>, positions: seq<nat>): seq<T>
    requires forall a | 0 <= a < |positions| :: positions[a] < |s|
  {
    seq(|positions|, j requires 0 <= j < |positions| => s[positions[j]])
  }

  /** The messages that stay, from position `i` on. */
  function Unacked(q: seq<ReliableMessage>, acked: set<SequenceNumber>, i: nat): seq<ReliableMessage>
    requires i <= |q|
  {
    Select(q, Kept(q, acked, i))
  }

  lemma UnackedStep(q: seq<ReliableMessage>, acked: set<SequenceNumber>, i: nat)
    requires i < |q|
    ensures Unacked(q, acked, i)
         == (if q[i].packetSequenceNum in acked then [] else [q[i]]) + Unacked(q, acked, i + 1)
  {
    var rest := Kept(q, acked, i + 1);
    if q[i].packetSequenceNum !in acked {
      assert Kept(q, acked, i) == [i] + rest;
      assert Select(q, [i] + rest) == [q[i]] + Select(q, rest);
    }
  }

  /** ChannelManager::onPacketAcked */
  function RemoveAcked(st: PeerState, acked: set<SequenceNumber>): PeerState {
    st.(reliable := Unacked(st.reliable, acked, 0))
  }

  /** A message the receive callback was called with, and which of the two queues it came from; the user is
      not told the latter. */
  datatype Handed = Handed(message: Payload, reliable: bool)

  /** The calls of the receive callback for one peer, in order. */
  datatype Reception = Reception(from: ConnectionId, messages: seq<Handed>)

  function AllHanded(queue: seq<Payload>, reliable: bool): seq<Handed> {
    seq(|queue|, i requires 0 <= i < |queue| => Handed(queue[i], reliable))
  }

  /** What one peer delivers: the reliable messages first. */
  function HandedBy(st: PeerState): seq<Handed> {
    AllHanded(st.reliableToDeliver, true) + AllHanded(st.unreliableToDeliver, false)
  }

  /** The payloads of a log that came from the one queue or the other. */
  function Payloads(log: seq<Handed>, reliable: bool): seq<Payload> {
    if log == [] then []
    else Payloads(log[..|log| - 1], reliable) + (if log[|log| - 1].reliable == reliable then [log[|log| - 1].message] else [])
  }

  lemma {:induction false} PayloadsConcat(a: seq<Handed>, b: seq<Handed>, reliable: bool)
    ensures Payloads(a + b, reliable) == Payloads(a, reliable) + Payloads(b, reliable)
    decreases |b|
  {
    if b == [] {
      assert a + b == a;
    } else {
      assert (a + b)[..|a + b| - 1] == a + b[..|b| - 1];
      PayloadsConcat(a, b[..|b| - 1], reliable);
    }
  }

  lemma {:induction false} PayloadsOfQueue(queue: seq<Payload>, reliable: bool, wanted: bool)
    ensures Payloads(AllHanded(queue, reliable), wanted) == if reliable == wanted then queue else []
  {
    if queue != [] {
      var most := queue[..|queue| - 1];
      assert AllHanded(queue, reliable)[..|queue| - 1] == AllHanded(most, reliable);
      PayloadsOfQueue(most, reliable, wanted);
      assert queue == most + [queue[|queue| - 1]];
    }
  }

  /** What one peer delivers, queue by queue. */
  lemma HandedByQueues(st: PeerState)
    ensures Payloads(HandedBy(st), true) == st.reliableToDeliver && Payloads(HandedBy(st), false) == st.unreliableToDeliver
  {
    forall wanted: bool
      ensures Payloads(HandedBy(st), wanted)
           == Payloads(AllHanded(st.reliableToDeliver, true), wanted) + Payloads(AllHanded(st.unreliableToDeliver, false), wanted)
    {
      PayloadsConcat(AllHanded(st.reliableToDeliver, true), AllHanded(st.unreliableToDeliver, false), wanted);
    }
    PayloadsOfQueue(st.reliableToDeliver, true, true);
    PayloadsOfQueue(st.unreliableToDeliver, false, true);
    PayloadsOfQueue(st.reliableToDeliver, true, false);
    PayloadsOfQueue(st.unreliableToDeliver, false, false);
  }

  function ReceptionFrom(id: ConnectionId, st: PeerState): Reception {
    Reception(id, HandedBy(st))
  }

  /** ChannelManager::updateReceive for one peer: deliver what is queued and re-arm the frame flag. */
  function Flush(st: PeerState): PeerState {
    st.(reliableToDeliver := [], unreliableToDeliver := [], hasReliable := st.reliable != [])
  }

  /** Delivery only ever appends: earlier deliveries can be set aside. */
  lemma ReceiveAppends(box: OrderedChannel.Inbox, earlier: seq<Payload>, s: SequenceNumber, m: Payload)
    ensures var r := OrderedChannel.Receive(box, s, m);
            OrderedChannel.Receive(box.(queue := earlier + box.queue), s, m) == r.(queue := earlier + r.queue)
  {
    if OrderedChannel.Judge(box.last, s) == OrderedChannel.Deliver {
      var near := box.(last := s, queue := box.queue + [m]);
      var far := box.(last := s, queue := (earlier + box.queue) + [m]);
      OrderedChannel.DrainDeliversRun(near, 0);
      OrderedChannel.DrainDeliversRun(far, 0);
      var run := OrderedChannel.RunFrom(box.store, s + 1);
      assert far.queue + run == earlier + (near.queue + run);
    }
  }
}
