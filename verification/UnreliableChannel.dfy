/** The unreliable channel: what is read is handed over, in order and whole, and what is sent leaves in the
    order in which it was accepted (src/channel/Peer.cpp:27-39, src/channel/ChannelManager.cpp:145-160). */
module UnreliableChannel {
  import opened SequenceNumbers
  import opened Bytes
  import opened Packing
  import opened Channels
  import opened Session
  import OrderedChannel

  /** The payloads of the unreliable messages, in order. */
  function UnreliableOf(entries: seq<Entry>): seq<Payload> {
    if entries == [] then []
    else (if entries[0].channelId == UNRELIABLE_CHANNEL_ID then [entries[0].payload] else []) + UnreliableOf(entries[1..])
  }

  /** Those that a packet carries. */
  function UnreliableIn(data: seq<Byte>): seq<Payload> {
    if |data| < PACKET_HEADER_SIZE_BYTES || GetEntries(data, PACKET_HEADER_SIZE_BYTES).None? then []
    else UnreliableOf(GetEntries(data, PACKET_HEADER_SIZE_BYTES).value)
  }

  function UnreliableInAll(packets: seq<seq<Byte>>): seq<Payload> {
    if packets == [] then []
    else UnreliableInAll(packets[..|packets| - 1]) + UnreliableIn(packets[|packets| - 1])
  }

  lemma OnePacketMore(packets: seq<seq<Byte>>, data: seq<Byte>)
    ensures UnreliableInAll(packets + [data]) == UnreliableInAll(packets) + UnreliableIn(data)
  {
    assert (packets + [data])[..|packets|] == packets;
  }

  /** What the reliable messages among the entries do to an inbox, one after the other. */
  function ReceiveReliable(box: OrderedChannel.Inbox, entries: seq<Entry>): OrderedChannel.Inbox
    decreases |entries|
  {
    if entries == [] then box
    else
      var e := entries[0];
      ReceiveReliable(if e.channelId == 1 then OrderedChannel.Receive(box, e.sequenceNum, e.payload) else box, entries[1..])
  }

  /** Reading the messages of a packet: the unreliable ones are appended to those waiting, in order, the
      reliable ones go to the inbox, in order, and those on other channels do nothing. */
  lemma {:induction false} ReadingByChannel(st: PeerState, entries: seq<Entry>)
    ensures var (r, box) := (ReceiveEntries(st, entries), ReceiveReliable(InboxOf(st), entries));
            r == st.(unreliableToDeliver := st.unreliableToDeliver + UnreliableOf(entries),
                     last := box.last, store := box.store, reliableToDeliver := box.queue)
    decreases |entries|
  {
    if entries != [] {
      var next := ReceiveEntry(st, entries[0]);
      ReadingByChannel(next, entries[1..]);
      Assoc(st.unreliableToDeliver, if entries[0].channelId == UNRELIABLE_CHANNEL_ID then [entries[0].payload] else [],
            UnreliableOf(entries[1..]));
    }
  }

  lemma {:induction false} UnreliableOfConcat(a: seq<Entry>, b: seq<Entry>)
    ensures UnreliableOf(a + b) == UnreliableOf(a) + UnreliableOf(b)
  {
    if a == [] {
      assert a + b == b;
    } else {
      assert (a + b)[0] == a[0] && (a + b)[1..] == a[1..] + b;
      UnreliableOfConcat(a[1..], b);
    }
  }

  lemma {:induction false} NoneUnreliable(entries: seq<Entry>)
    requires forall e | e in entries :: e.channelId == RELIABLE_CHANNEL_ID
    ensures UnreliableOf(entries) == []
  {
    if entries != [] { NoneUnreliable(entries[1..]); }
  }

  lemma {:induction false} AllUnreliable(q: seq<Payload>)
    ensures UnreliableOf(UnreliableEntries(q)) == q
  {
    if q != [] {
      assert UnreliableEntries(q)[1..] == UnreliableEntries(q[1..]);
      AllUnreliable(q[1..]);
    }
  }

  /** A packet takes from the front of the queue. */
  lemma WritingTakesFront(st: PeerState, used: nat, packet: SequenceNumber, c: Clock)
    ensures var w := WritePacket(st, used, packet, c); UnreliableOf(w.entries) + w.st.unreliable == st.unreliable
  {
    var walk := WalkReliable(st.reliable, 0, used, c);
    var due := DueEntries(st.reliable[..walk.stop], c);
    DueEntriesMembers(st.reliable[..walk.stop], c);
    NoneUnreliable(due);
    if walk.stop == |st.reliable| {
      var n := TakeUnreliable(st.unreliable, walk.used);
      UnreliableOfConcat(due, UnreliableEntries(st.unreliable[..n]));
      AllUnreliable(st.unreliable[..n]);
    }
  }

  // ---------------------------------------------------------------------------------------------
  // Over a session

  /** The packets sent carry, in order, the accepted messages that are no longer queued. */
  predicate LeaveInOrder(x: Endpoint) {
    UnreliableInAll(x.datagrams) + x.peer.unreliable == x.acceptedUnreliable
  }

  /** The packets read carried, in order, what was handed over and what waits to be. */
  predicate HandedAsRead(x: Endpoint) {
    UnreliableInAll(x.taken) == x.poppedUnreliable + x.peer.unreliableToDeliver
  }

  predicate ReadsWereSent(x: Endpoint, y: Endpoint) {
    forall data | data in x.taken :: data in y.datagrams
  }

  predicate UnreliableOk(x: Endpoint, y: Endpoint) {
    LeaveInOrder(x) && HandedAsRead(x) && ReadsWereSent(x, y)
  }

  lemma PacketOfEntries(x: Endpoint, n: nat)
    requires n < |x.records| == |x.datagrams| && PacketOk(x, n)
    ensures UnreliableIn(x.datagrams[n]) == UnreliableOf(x.records[n].entries)
  {
    var r := x.records[n];
    PacketRoundTrip(PacketHeader(USER_PACKET, Wire(n), r.ack, r.bits), r.entries);
  }

  lemma Assoc(a: seq<Payload>, b: seq<Payload>, c: seq<Payload>)
    ensures (a + b) + c == a + (b + c)
  {
  }

  /** One more packet is sent. */
  lemma SendingKeepsOrder(x: Endpoint, x': Endpoint, data: seq<Byte>, entries: seq<Entry>)
    requires LeaveInOrder(x) && x'.datagrams == x.datagrams + [data] && UnreliableIn(data) == UnreliableOf(entries)
    requires UnreliableOf(entries) + x'.peer.unreliable == x.peer.unreliable && x'.acceptedUnreliable == x.acceptedUnreliable
    ensures LeaveInOrder(x')
  {
    OnePacketMore(x.datagrams, data);
    Assoc(UnreliableInAll(x.datagrams), UnreliableOf(entries), x'.peer.unreliable);
  }

  lemma EmitSends(x: Endpoint, c: Clock, x': Endpoint)
    requires |x.datagrams| == |x.records| && HasDataToSend(x.peer) && x' == Emit(x, c)
    ensures var n := |x.records|;
            && |x'.records| == |x'.datagrams| == n + 1 && x'.datagrams == x.datagrams + [x'.datagrams[n]]
            && UnreliableOf(x'.records[n].entries) + x'.peer.unreliable == x.peer.unreliable
            && x' == x.(peer := x'.peer, acks := x'.acks, datagrams := x'.datagrams, records := x'.records, written := x'.written)
            && x'.peer.unreliableToDeliver == x.peer.unreliableToDeliver
  {
    WritingTakesFront(x.peer, PACKET_HEADER_SIZE_BYTES, x.acks.st.generator, c);
  }

  lemma EmitKeepsUnreliable(x: Endpoint, y: Endpoint, c: Clock, x': Endpoint)
    requires SenderOk(x) && UnreliableOk(x, y) && UnreliableOk(y, x) && x' == Emit(x, c)
    ensures UnreliableOk(x', y) && UnreliableOk(y, x')
  {
    if HasDataToSend(x.peer) {
      var n := |x.records|;
      EmitSends(x, c, x');
      EmitMakesPacket(x, c);
      PacketOfEntries(x', n);
      SendingKeepsOrder(x, x', x'.datagrams[n], x'.records[n].entries);
    }
  }

  /** What reading packet `n` leaves as it is, and what it appends. */
  lemma DeliveryReads(x: Endpoint, y: Endpoint, n: nat, x': Endpoint)
    requires SenderOk(y) && n < |y.records| && x' == TakeDelivery(x, y, n)
    ensures x'.datagrams == x.datagrams && x'.peer.unreliable == x.peer.unreliable && x'.taken == x.taken + [y.datagrams[n]]
    ensures x'.acceptedUnreliable == x.acceptedUnreliable && x'.poppedUnreliable == x.poppedUnreliable
    ensures x'.peer.unreliableToDeliver == x.peer.unreliableToDeliver + UnreliableOf(y.records[n].entries)
  {
    DeliverReads(x, y, n);
    ReceiveLeavesSender(x.peer, y.records[n].entries);
    ReadingByChannel(x.peer, y.records[n].entries);
  }

  lemma DeliveryKeepsUnreliable(x: Endpoint, y: Endpoint, n: nat, x': Endpoint)
    requires SenderOk(y) && n < |y.records| && UnreliableOk(x, y) && UnreliableOk(y, x) && x' == TakeDelivery(x, y, n)
    ensures UnreliableOk(x', y) && UnreliableOk(y, x')
  {
    DeliveryReads(x, y, n, x');
    PacketOfEntries(y, n);
    ReadingKeepsUnreliable(x, y, y.datagrams[n], y.records[n].entries, x');
  }

  lemma ReadingKeepsUnreliable(x: Endpoint, y: Endpoint, data: seq<Byte>, entries: seq<Entry>, x': Endpoint)
    requires UnreliableOk(x, y) && UnreliableOk(y, x) && data in y.datagrams && UnreliableIn(data) == UnreliableOf(entries)
    requires x'.datagrams == x.datagrams && x'.peer.unreliable == x.peer.unreliable && x'.taken == x.taken + [data]
    requires x'.acceptedUnreliable == x.acceptedUnreliable && x'.poppedUnreliable == x.poppedUnreliable
    requires x'.peer.unreliableToDeliver == x.peer.unreliableToDeliver + UnreliableOf(entries)
    ensures UnreliableOk(x', y) && UnreliableOk(y, x')
  {
    ReadingHands(x, data, entries, x');
    assert LeaveInOrder(x');
  }

  lemma ReadingHands(x: Endpoint, data: seq<Byte>, entries: seq<Entry>, x': Endpoint)
    requires HandedAsRead(x) && UnreliableIn(data) == UnreliableOf(entries)
    requires x'.taken == x.taken + [data] && x'.poppedUnreliable == x.poppedUnreliable
    requires x'.peer.unreliableToDeliver == x.peer.unreliableToDeliver + UnreliableOf(entries)
    ensures HandedAsRead(x')
  {
    OnePacketMore(x.taken, data);
    Assoc(x.poppedUnreliable, x.peer.unreliableToDeliver, UnreliableOf(entries));
  }

  lemma SubmitKeepsUnreliable(x: Endpoint, y: Endpoint, message: Payload, isReliable: bool, x': Endpoint)
    requires UnreliableOk(x, y) && UnreliableOk(y, x) && x' == Submit(x, message, isReliable)
    ensures UnreliableOk(x', y) && UnreliableOk(y, x')
  {
    Assoc(UnreliableInAll(x.datagrams), x.peer.unreliable, [message]);
    assert x'.datagrams == x.datagrams && x'.taken == x.taken && x'.peer.unreliableToDeliver == x.peer.unreliableToDeliver;
  }

  lemma FlushKeepsUnreliable(x: Endpoint, y: Endpoint, x': Endpoint)
    requires UnreliableOk(x, y) && UnreliableOk(y, x) && x' == FlushAll(x)
    ensures UnreliableOk(x', y) && UnreliableOk(y, x')
  {
    assert x'.datagrams == x.datagrams && x'.taken == x.taken;
    assert x'.poppedUnreliable + [] == x'.poppedUnreliable;
  }

  lemma ActKeepsUnreliable(x: Endpoint, y: Endpoint, a: Action, x': Endpoint)
    requires SenderOk(x) && SenderOk(y) && UnreliableOk(x, y) && UnreliableOk(y, x) && x' == Act(x, y, a)
    ensures UnreliableOk(x', y) && UnreliableOk(y, x')
  {
    match a
    case Submitted(message, isReliable) => SubmitKeepsUnreliable(x, y, message, isReliable, x');
    case Emitted(c) => EmitKeepsUnreliable(x, y, c, x');
    case Delivery(n) => if n < |y.records| { DeliveryKeepsUnreliable(x, y, n, x'); }
    case Flushed => FlushKeepsUnreliable(x, y, x');
  }

  /** In every reachable state of a session: the packets that went out carry, in order, exactly the
      unreliable messages accepted, up to those still queued; what the user of the other end was handed,
      and what waits to be, is exactly what the packets carried that were read there, in the order in
      which they were read. */
  lemma {:induction false} UnreliableFlow(moves: seq<Move>)
    ensures var w := Play(moves); UnreliableOk(w.a, w.b) && UnreliableOk(w.b, w.a)
  {
    if moves != [] {
      var most, m := moves[..|moves| - 1], moves[|moves| - 1];
      UnreliableFlow(most);
      PlayKeepsInv(most);
      if m.byA {
        ActKeepsUnreliable(Play(most).a, Play(most).b, m.action, Play(moves).a);
      } else {
        ActKeepsUnreliable(Play(most).b, Play(most).a, m.action, Play(moves).b);
      }
    }
  }
}
