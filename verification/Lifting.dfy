/** Hosts and sessions: whatever two hosts of the world do to each other during one session is a run of
    the two-endpoint system, so what holds of its endpoints holds of the hosts' peers. */
module Lifting {
  import opened SequenceNumbers
  import opened PacketAcks
  import opened Bytes
  import opened Packing
  import opened Channels
  import opened Connections
  import opened Lifecycle
  import opened SingleConnections
  import opened Handshake
  import opened Stories
  import OrderedChannel
  import opened UnreliableChannel
  import S = Session
  import Guarantees

  // ---------------------------------------------------------------------------------------------
  // What a host and an endpoint have in common

  /** The ids under which the host has come up with an address. */
  function Ups(events: seq<Callback>, address: Address): seq<ConnectionId> {
    if events == [] then []
    else
      var last := events[|events| - 1];
      Ups(events[..|events| - 1], address) + (if last.kind.Up? && last.address == address then [last.id] else [])
  }

  predicate Mirrors(h: Host, id: ConnectionId, x: S.Endpoint) {
    InTables(h, id) && h.channels[id] == x.peer && h.packets[id] == x.acks.st
  }

  /** The user was handed from `to` what the endpoint has handed over. */
  ghost predicate Logs(received: map<ConnectionId, seq<Handed>>, ids: seq<ConnectionId>, x: S.Endpoint) {
    forall id | id in ids ::
      Payloads(LogOf(received, id), true) == x.popped && Payloads(LogOf(received, id), false) == x.poppedUnreliable
  }

  /** The host's side of its session with `to` is the endpoint `x`; before the session `x` is new. */
  ghost predicate Shows(h: Host, k: nat, to: Address, x: S.Endpoint) {
    && (forall i | 0 <= i < |h.connections| && h.connections[i].address == to && Live(h, i, k) ::
          Mirrors(h, h.connections[i].id, x) && h.connections[i].id in Ups(h.events, to))
    && (Ups(h.events, to) == [] ==> x == S.NewEndpoint())
    && Logs(h.received, Ups(h.events, to), x)
    && UserPackets(h.sent, to) == x.datagrams
  }

  /** The endpoint's history is the story. */
  ghost predicate Tells(x: S.Endpoint, t: Story) {
    && x.accepted == t.accepted && x.numbers == t.queued && x.written == t.written && (x.lost == {} <==> t.intact)
    && x.ordered == t.safe && x.acceptedUnreliable == t.acceptedUnreliable && x.taken == t.taken
    && |x.records| == |t.packets| && forall n | 0 <= n < |x.records| :: x.records[n].numbers == t.packets[n]
  }

  /** In a short session only a first message other than message 0 breaks the arrival condition. */
  ghost predicate ShortIsSafe(y: S.Endpoint, t: Story) {
    |y.accepted| <= 32769 ==> (t.safe <==> t.zeroFirst)
  }

  ghost predicate Linked(x: S.Endpoint, y: S.Endpoint) {
    S.SenderOk(x) && S.SenderOk(y) && S.Link(x, y) && S.Link(y, x)
  }

  ghost predicate Knows(x: S.Endpoint, y: S.Endpoint, t: Story, far: Story) {
    Linked(x, y) && Tells(x, t) && Tells(y, far) && ShortIsSafe(y, t)
  }

  lemma OneMoreSent(sent: seq<Outgoing>, o: Outgoing, to: Address)
    ensures UserPackets(sent + [o], to)
         == UserPackets(sent, to) + (if o.to == to && IsUserPacket(o.data) then [o.data] else [])
  {
  }

  lemma {:induction false} UserPacketWasSent(sent: seq<Outgoing>, to: Address, data: seq<Byte>)
    requires Outgoing(to, data) in sent && IsUserPacket(data)
    ensures data in UserPackets(sent, to)
  {
    var last := sent[|sent| - 1];
    assert sent == sent[..|sent| - 1] + [last];
    if last != Outgoing(to, data) {
      UserPacketWasSent(sent[..|sent| - 1], to, data);
    }
  }

  lemma {:induction false} UpsGrow(events: seq<Callback>, more: seq<Callback>, to: Address)
    requires |events| <= |more| && more[..|events|] == events
    ensures |Ups(events, to)| <= |Ups(more, to)|
    decreases |more|
  {
    if |events| == |more| {
      assert events == more;
    } else {
      assert more[..|more| - 1][..|events|] == events;
      UpsGrow(events, more[..|more| - 1], to);
    }
  }

  // ---------------------------------------------------------------------------------------------
  // Steps that do not concern the session

  /** What is live for `to` afterwards was live before, with the same peers; no user packet went there. */
  ghost predicate Spares(h: Host, h': Host, k: nat, k': nat, to: Address) {
    && (forall i | 0 <= i < |h'.connections| && h'.connections[i].address == to && Live(h', i, k') ::
          exists j | 0 <= j < |h.connections| ::
            h.connections[j].address == to && Live(h, j, k) && h.connections[j].id == h'.connections[i].id &&
            SamePeers(h, h', h.connections[j].id))
    && Ups(h'.events, to) == Ups(h.events, to) && h'.received == h.received
    && UserPackets(h'.sent, to) == UserPackets(h.sent, to)
  }

  predicate SamePeers(h: Host, h': Host, id: ConnectionId) {
    InTables(h, id) ==> InTables(h', id) && h'.channels[id] == h.channels[id] && h'.packets[id] == h.packets[id]
  }

  lemma SparedStillShows(h: Host, h': Host, k: nat, k': nat, to: Address, x: S.Endpoint)
    requires Shows(h, k, to, x) && Spares(h, h', k, k', to)
    ensures Shows(h', k', to, x)
  {
  }

  /** The peers of the one live connection with `to` move as the endpoint does. */
  lemma LiveStillShows(h: Host, h': Host, i: nat, to: Address, x: S.Endpoint, x': S.Endpoint)
    requires InvAt(h, 0) && Shows(h, 0, to, x)
    requires i < |h.connections| && h.connections[i].address == to && Live(h, i, 0)
    requires h' == h.(channels := h'.channels, packets := h'.packets, sent := h'.sent, received := h'.received)
    requires Logs(h'.received, Ups(h.events, to), x')
    requires Mirrors(h', h.connections[i].id, x') && UserPackets(h'.sent, to) == x'.datagrams
    ensures Shows(h', 0, to, x')
  {
  }

  /** A quiet change of one connection, without user packets. */
  lemma QuietSpares(h: Host, h': Host, i: nat, k: nat, to: Address)
    requires Quiet(h, h', i) && k <= i && UserPackets(h'.sent, to) == UserPackets(h.sent, to)
    ensures Spares(h, h', k, k, to)
  {
  }

  lemma ControlIsNoUserPacket(kind: Byte)
    requires kind != USER_PACKET
    ensures !IsUserPacket(ControlPacket(kind))
  {
  }

  /** A connection comes up: with another address, or with this one for the first time. */
  lemma ComingUpShows(h: Host, h': Host, i: nat, k: nat, to: Address, x: S.Endpoint)
    requires InvAt(h, k) && Shows(h, k, to, x) && ComesUp(h, h', i) && k <= i
    requires Stage(h.connections[i].state) == 0 && |Ups(h'.events, to)| <= 1
    requires UserPackets(h'.sent, to) == UserPackets(h.sent, to)
    requires var id := h.connections[i].id;
             && h'.packets == h.packets[id := NewPacketState()] && h'.channels == h.channels[id := NEW_PEER_STATE]
    ensures Shows(h', k, to, x)
  {
    var c := h.connections[i];
    assert ConnectionOk(h, i, k);
    assert Ups(h'.events, to) == Ups(h.events, to) + (if c.address == to then [c.id] else []);
    assert LogOf(h.received, c.id) == [];
  }

  // ---------------------------------------------------------------------------------------------
  // Receiving

  /** The endpoint `x` performs some actions; `y` is the other endpoint. */
  function Acts(x: S.Endpoint, y: S.Endpoint, acts: seq<S.Action>): S.Endpoint {
    if acts == [] then x else S.Act(Acts(x, y, acts[..|acts| - 1]), y, acts[|acts| - 1])
  }

  lemma {:induction false} ActsConcat(x: S.Endpoint, y: S.Endpoint, a: seq<S.Action>, b: seq<S.Action>)
    ensures Acts(x, y, a + b) == Acts(Acts(x, y, a), y, b)
    decreases |b|
  {
    if b == [] {
      assert a + b == a;
    } else {
      assert (a + b)[..|a + b| - 1] == a + b[..|b| - 1];
      ActsConcat(x, y, a, b[..|b| - 1]);
    }
  }

  lemma ActOnce(x: S.Endpoint, y: S.Endpoint, act: S.Action)
    ensures Acts(x, y, [act]) == S.Act(x, y, act)
  {
  }

  lemma {:induction false} NothingAcked(q: seq<ReliableMessage>, i: nat)
    requires i <= |q|
    ensures Unacked(q, {}, i) == q[i..]
    decreases |q| - i
  {
    if i < |q| {
      NothingAcked(q, i + 1);
      UnackedStep(q, {}, i);
    }
  }

  /** What a packet with this header and these messages makes of the two states. */
  predicate Reads(peer: PeerState, acks: PacketState, header: PacketHeader, entries: seq<Entry>, peer': PeerState, acks': PacketState) {
    var r := ReceiveHeader(acks, header.sequenceNum, header.ack, header.ackBits);
    peer' == RemoveAcked(ReceiveEntries(peer, entries), r.1) && acks' == r.0
  }

  lemma EndpointReads(x: S.Endpoint, y: S.Endpoint, n: nat, x': S.Endpoint)
    requires S.SenderOk(y) && n < |y.datagrams| && x' == S.TakeDelivery(x, y, n)
    ensures Reads(x.peer, x.acks.st, S.HeaderOf(y, n), y.records[n].entries, x'.peer, x'.acks.st)
    ensures x'.datagrams == x.datagrams && x'.popped == x.popped && x'.poppedUnreliable == x.poppedUnreliable
  {
    S.DeliverReads(x, y, n);
  }

  lemma HostReads(h: Host, id: ConnectionId, header: PacketHeader, entries: seq<Entry>, data: seq<Byte>, h': Host)
    requires InTables(h, id) && |data| >= PACKET_HEADER_SIZE_BYTES
    requires GetPacketHeader(data) == header && GetEntries(data, PACKET_HEADER_SIZE_BYTES) == Some(entries)
    requires h' == ReadUserPacket(h, id, data)
    ensures InTables(h', id) && Reads(h.channels[id], h.packets[id], header, entries, h'.channels[id], h'.packets[id])
    ensures h' == h.(channels := h'.channels, packets := h'.packets)
  {
    NothingAcked(ReceiveEntries(h.channels[id], entries).reliable, 0);
  }

  /** Reading one packet: the peers of the connection end up as the endpoint does. */
  lemma ReadingMirrors(h: Host, id: ConnectionId, x: S.Endpoint, y: S.Endpoint, n: nat, h': Host, x': S.Endpoint)
    requires Mirrors(h, id, x) && S.SenderOk(y) && n < |y.datagrams| && |y.datagrams[n]| >= PACKET_HEADER_SIZE_BYTES
    requires h' == ReadUserPacket(h, id, y.datagrams[n]) && x' == S.TakeDelivery(x, y, n)
    ensures Mirrors(h', id, x') && x'.datagrams == x.datagrams
    ensures x'.popped == x.popped && x'.poppedUnreliable == x.poppedUnreliable
    ensures h' == h.(channels := h'.channels, packets := h'.packets)
  {
    assert S.PacketOk(y, n);
    PacketRoundTrip(S.HeaderOf(y, n), y.records[n].entries);
    EndpointReads(x, y, n, x');
    HostReads(h, id, S.HeaderOf(y, n), y.records[n].entries, y.datagrams[n], h');
  }

  /** A user packet changes the peers of its connection only. */
  lemma OtherPeersStay(h: Host, id: ConnectionId, data: seq<Byte>, other: ConnectionId)
    requires |data| >= PACKET_HEADER_SIZE_BYTES && id != other
    ensures SamePeers(h, ReadUserPacket(h, id, data), other)
  {
  }

  predicate FromPeer(p: Incoming, to: Address, y: S.Endpoint) {
    p.from == to && IsUserPacket(p.data) ==> p.data in y.datagrams
  }

  lemma ReadShows(h: Host, i: nat, data: seq<Byte>, to: Address, x: S.Endpoint, y: S.Endpoint, t: Story, far: Story, read: Host, t': Story)
    returns (acts: seq<S.Action>)
    requires |data| >= PACKET_HEADER_SIZE_BYTES && i < |h.connections| && Live(h, i, 0)
    requires InvAt(h, 0) && Shows(h, 0, to, x) && Knows(x, y, t, far)
    requires h.connections[i].address == to ==> data in y.datagrams
    requires read == ReadUserPacket(h, h.connections[i].id, data) && InTables(h, h.connections[i].id)
    requires t' == if h.connections[i].address != to then t
                   else OnRead(h.channels[h.connections[i].id], h.packets[h.connections[i].id],
                               Payloads(LogOf(h.received, h.connections[i].id), true), data, t, far, y.datagrams)
    ensures Shows(read, 0, to, Acts(x, y, acts)) && Tells(Acts(x, y, acts), t') && ShortIsSafe(y, t')
  {
    acts := [];
    if h.connections[i].address == to {
      assert Mirrors(h, h.connections[i].id, x) && h.connections[i].id in Ups(h.events, to);
      var n := PickPacket(data, InboxWith(x.popped, x.peer), far, y.datagrams);
      acts := [S.Delivery(n)];
      ActOnce(x, y, S.Delivery(n));
      ReadHereShows(h, i, n, x, y, read, S.TakeDelivery(x, y, n));
      ReadingTells(x, y, n, t, far, t', S.TakeDelivery(x, y, n));
    } else {
      ReadElsewhereSpares(h, i, data, to);
      SparedStillShows(h, read, 0, 0, to, x);
    }
  }

  /** The packet to read these bytes as: one that arrives safely, if there is one. */
  lemma PickPacket(data: seq<Byte>, box: OrderedChannel.Inbox, far: Story, farPackets: seq<seq<Byte>>) returns (n: nat)
    requires data in farPackets
    ensures n < |farPackets| && farPackets[n] == data
    ensures ArrivesSafely(data, box, far, farPackets) <==> ArrivesSafelyAs(data, n, box, far, farPackets)
  {
    if ArrivesSafely(data, box, far, farPackets) {
      n :| 0 <= n < |farPackets| && ArrivesSafelyAs(data, n, box, far, farPackets);
    } else {
      n :| 0 <= n < |farPackets| && farPackets[n] == data;
    }
  }

  /** The history of reading packet `n`. */
  lemma ReadingTells(x: S.Endpoint, y: S.Endpoint, n: nat, t: Story, far: Story, t': Story, x': S.Endpoint)
    requires Knows(x, y, t, far) && n < |y.datagrams|
    requires |y.datagrams[n]| >= PACKET_HEADER_SIZE_BYTES
    requires t' == OnRead(x.peer, x.acks.st, x.popped, y.datagrams[n], t, far, y.datagrams)
    requires var box := InboxWith(x.popped, x.peer);
             ArrivesSafely(y.datagrams[n], box, far, y.datagrams) <==> ArrivesSafelyAs(y.datagrams[n], n, box, far, y.datagrams)
    requires x' == S.TakeDelivery(x, y, n)
    ensures Tells(x', t') && ShortIsSafe(y, t')
  {
    PacketReadsBack(y, n);
    StoryOfReading(x, y, n, t, far, t');
    EndpointHistory(x, y, n, x');
    ReadingStaysShort(x, y, n, t, far, t');
  }

  lemma PacketReadsBack(y: S.Endpoint, n: nat)
    requires S.SenderOk(y) && n < |y.datagrams|
    ensures |y.datagrams[n]| >= PACKET_HEADER_SIZE_BYTES && GetPacketHeader(y.datagrams[n]) == S.HeaderOf(y, n)
    ensures GetEntries(y.datagrams[n], PACKET_HEADER_SIZE_BYTES) == Some(y.records[n].entries)
  {
    assert S.PacketOk(y, n);
    PacketRoundTrip(S.HeaderOf(y, n), y.records[n].entries);
  }

  lemma ReadingStaysShort(x: S.Endpoint, y: S.Endpoint, n: nat, t: Story, far: Story, t': Story)
    requires Knows(x, y, t, far) && n < |y.records|
    requires var numbers := y.records[n].numbers;
             && t'.safe == (t.safe && S.AllSafe(S.FullInbox(x), numbers, y.accepted))
             && t'.zeroFirst == (t.zeroFirst && (S.Delivered(x) != [] || numbers == [] || Wire(numbers[0]) == 0))
    ensures ShortIsSafe(y, t')
  {
    if t.safe && |y.accepted| <= 32769 {
      OrderedLink(x, y, n);
      ShortPacketIsSafeIff(S.FullInbox(x), y.records[n].numbers, y.accepted, x.handed);
    }
  }

  lemma OrderedLink(x: S.Endpoint, y: S.Endpoint, n: nat)
    requires Linked(x, y) && x.ordered && n < |y.records|
    ensures OrderedChannel.InOrder(S.FullInbox(x), y.accepted, x.handed)
    ensures forall j | 0 <= j < |y.records[n].numbers| :: y.records[n].numbers[j] < |y.accepted|
  {
    assert S.PacketOk(y, n);
  }

  lemma SmallOnTheWire(n: nat)
    requires n < 65536
    ensures Wire(n) == n
  {
  }

  lemma ShortPacketIsSafeIff(box: OrderedChannel.Inbox, numbers: seq<nat>, log: seq<Payload>, got: set<nat>)
    requires OrderedChannel.InOrder(box, log, got) && |log| <= 32769
    requires forall j | 0 <= j < |numbers| :: numbers[j] < |log|
    ensures S.AllSafe(box, numbers, log) <==> box.queue != [] || numbers == [] || Wire(numbers[0]) == 0
  {
    if numbers != [] { SmallOnTheWire(numbers[0]); }
    Guarantees.SafeOnceStartedIff(box, numbers, log, got);
  }

  /** What reading packet `n` adds to the story, in terms of what the packet is. */
  lemma StoryOfReading(x: S.Endpoint, y: S.Endpoint, n: nat, t: Story, far: Story, t': Story)
    requires Knows(x, y, t, far) && n < |y.datagrams|
    requires |y.datagrams[n]| >= PACKET_HEADER_SIZE_BYTES
    requires t' == OnRead(x.peer, x.acks.st, x.popped, y.datagrams[n], t, far, y.datagrams)
    requires var box := InboxWith(x.popped, x.peer);
             ArrivesSafely(y.datagrams[n], box, far, y.datagrams) <==> ArrivesSafelyAs(y.datagrams[n], n, box, far, y.datagrams)
    requires GetPacketHeader(y.datagrams[n]) == S.HeaderOf(y, n)
    requires GetEntries(y.datagrams[n], PACKET_HEADER_SIZE_BYTES) == Some(y.records[n].entries)
    ensures var left := S.PacketsAcked(x, S.ReportOf(x, y, n));
            var numbers := y.records[n].numbers;
            t' == t.(queued := left.0,
                     intact := t.intact && !(0 in S.ReportOf(x, y, n) && SomeUnwritten(x.numbers, x.written)),
                     safe := t.safe && S.AllSafe(S.FullInbox(x), numbers, y.accepted),
                     zeroFirst := t.zeroFirst && (S.Delivered(x) != [] || numbers == [] || Wire(numbers[0]) == 0),
                     taken := t.taken + [y.datagrams[n]])
  {
    FirstReliableIsFirst(y, n);
  }

  lemma EndpointHistory(x: S.Endpoint, y: S.Endpoint, n: nat, x': S.Endpoint)
    requires S.SenderOk(x) && S.SenderOk(y) && n < |y.datagrams| && x' == S.TakeDelivery(x, y, n)
    ensures x'.numbers == S.PacketsAcked(x, S.ReportOf(x, y, n)).0
    ensures x'.lost == {} <==> x.lost == {} && !(0 in S.ReportOf(x, y, n) && SomeUnwritten(x.numbers, x.written))
    ensures x'.ordered == (x.ordered && S.AllSafe(S.FullInbox(x), y.records[n].numbers, y.accepted))
    ensures x'.accepted == x.accepted && x'.written == x.written && x'.records == x.records
    ensures x'.acceptedUnreliable == x.acceptedUnreliable && x'.taken == x.taken + [y.datagrams[n]]
  {
    S.DeliverReads(x, y, n);
    forall k: nat
      ensures k in x'.lost && k !in x.lost <==> Guarantees.Unwritten(x, k) && 0 in S.ReportOf(x, y, n)
      ensures k in x.lost ==> k in x'.lost
    {
      Guarantees.LostByDelivery(x, y, n, k);
    }
    if SomeUnwritten(x.numbers, x.written) {
      var k :| k in x.numbers && k !in x.written;
      assert Guarantees.Unwritten(x, k);
    }
  }

  lemma FirstReliableIsFirst(y: S.Endpoint, n: nat)
    requires S.SenderOk(y) && n < |y.records|
    ensures var numbers := y.records[n].numbers;
            FirstReliable(y.records[n].entries) == if numbers == [] then None else Some(Wire(numbers[0]))
  {
    assert S.PacketOk(y, n);
    if y.records[n].numbers == [] { NoneReliable(y.records[n].entries); }
  }

  lemma {:induction false} NoneReliable(entries: seq<Entry>)
    requires forall j | 0 <= j < |entries| :: entries[j].channelId == UNRELIABLE_CHANNEL_ID
    ensures FirstReliable(entries) == None
  {
    if entries != [] { NoneReliable(entries[1..]); }
  }

  lemma ReadHereShows(h: Host, i: nat, n: nat, x: S.Endpoint, y: S.Endpoint, h': Host, x': S.Endpoint)
    requires i < |h.connections| && Live(h, i, 0) && InvAt(h, 0)
    requires Shows(h, 0, h.connections[i].address, x) && S.SenderOk(y) && n < |y.datagrams|
    requires |y.datagrams[n]| >= PACKET_HEADER_SIZE_BYTES
    requires h' == ReadUserPacket(h, h.connections[i].id, y.datagrams[n]) && x' == S.TakeDelivery(x, y, n)
    ensures Shows(h', 0, h.connections[i].address, x')
  {
    ReadingMirrors(h, h.connections[i].id, x, y, n, h', x');
    LiveStillShows(h, h', i, h.connections[i].address, x, x');
  }

  lemma ReadElsewhereSpares(h: Host, i: nat, data: seq<Byte>, to: Address)
    requires |data| >= PACKET_HEADER_SIZE_BYTES && i < |h.connections|
    requires InvAt(h, 0) && h.connections[i].address != to
    ensures Spares(h, ReadUserPacket(h, h.connections[i].id, data), 0, 0, to)
  {
    var read := ReadUserPacket(h, h.connections[i].id, data);
    assert read.connections == h.connections && read.events == h.events && read.sent == h.sent;
    forall j | 0 <= j < |h.connections| && h.connections[j].address == to
      ensures SamePeers(h, read, h.connections[j].id)
    {
      assert h.connections[j].id != h.connections[i].id;
      OtherPeersStay(h, h.connections[i].id, data, h.connections[j].id);
    }
  }

  /** On a connection that is CONNECTED a user packet is read. */
  lemma ArrivalIsReading(h: Host, p: Incoming, i: nat, to: Address, t: Story, far: Story, farPackets: seq<seq<Byte>>)
    requires IsUserPacket(p.data) && i == FindAddress(h.connections, p.from) < |h.connections|
    requires h.connections[i].state.Connected? && InTables(h, h.connections[i].id)
    ensures OnArrival(h, p, to, t, far, farPackets)
         == if h.connections[i].address != to then t
            else OnRead(h.channels[h.connections[i].id], h.packets[h.connections[i].id],
                        Payloads(LogOf(h.received, h.connections[i].id), true), p.data, t, far, farPackets)
  {
  }

  lemma UserPacketShows(h: Host, p: Incoming, i: nat, to: Address, x: S.Endpoint, y: S.Endpoint, t: Story, far: Story, h': Host, t': Story)
    returns (acts: seq<S.Action>)
    requires IsUserPacket(p.data) && i == FindAddress(h.connections, p.from) < |h.connections|
    requires h.connections[i].state.Connected?
    requires InvAt(h, 0) && Shows(h, 0, to, x) && Knows(x, y, t, far) && FromPeer(p, to, y)
    requires h' == Heard(ReadUserPacket(h, h.connections[i].id, p.data), i, p.at)
    requires t' == OnArrival(h, p, to, t, far, y.datagrams)
    ensures Shows(h', 0, to, Acts(x, y, acts)) && Tells(Acts(x, y, acts), t') && ShortIsSafe(y, t')
  {
    var read := ReadUserPacket(h, h.connections[i].id, p.data);
    assert ConnectionOk(h, i, 0);
    ArrivalIsReading(h, p, i, to, t, far, y.datagrams);
    acts := ReadShows(h, i, p.data, to, x, y, t, far, read, t');
    assert read.connections == h.connections;
    HeardShows(read, i, p.at, to, Acts(x, y, acts), h');
  }

  lemma HeardShows(h: Host, i: nat, at: nat, to: Address, x: S.Endpoint, h': Host)
    requires i < |h.connections| && Shows(h, 0, to, x) && h' == Heard(h, i, at)
    ensures Shows(h', 0, to, x)
  {
    HeardIsQuiet(h, i, at);
    QuietSpares(h, h', i, 0, to);
    SparedStillShows(h, h', 0, 0, to, x);
  }

  lemma HeardIsQuiet(h: Host, i: nat, at: nat)
    requires i < |h.connections|
    ensures Quiet(h, Heard(h, i, at), i)
  {
  }

  lemma AnswerOpensPeers(h: Host, p: Incoming, i: nat)
    requires |p.data| >= PACKET_HEADER_SIZE_BYTES && i == FindAddress(h.connections, p.from) < |h.connections|
    requires GetPacketHeader(p.data).kind in {CONNECT_ACCEPT, HEARTBEAT} && h.connections[i].state.Requesting?
    requires InNoTable(h, h.connections[i].id)
    ensures var id := h.connections[i].id;
            && Receive(h, p).packets == h.packets[id := NewPacketState()]
            && Receive(h, p).channels == h.channels[id := NEW_PEER_STATE]
  {
  }

  lemma AddingSpares(h: Host, h': Host, c: Connection, to: Address)
    requires h' == h.(created := h.created + 1, connections := h.connections + [c]) && !c.wasConnected
    ensures Spares(h, h', 0, 0, to)
  {
  }

  lemma ReceiveShows(h: Host, p: Incoming, to: Address, x: S.Endpoint, y: S.Endpoint, t: Story, far: Story, h': Host, t': Story)
    returns (acts: seq<S.Action>)
    requires |p.data| >= PACKET_HEADER_SIZE_BYTES && h' == Receive(h, p)
    requires InvAt(h, 0) && Shows(h, 0, to, x) && Knows(x, y, t, far) && FromPeer(p, to, y)
    requires |Ups(h'.events, to)| <= 1 && t' == OnArrival(h, p, to, t, far, y.datagrams)
    ensures Shows(h', 0, to, Acts(x, y, acts)) && Tells(Acts(x, y, acts), t') && ShortIsSafe(y, t')
  {
    acts := [];
    var kind := GetPacketHeader(p.data).kind;
    var i := FindAddress(h.connections, p.from);
    if i < |h.connections| && kind == USER_PACKET && h.connections[i].state.Connected? {
      acts := UserPacketShows(h, p, i, to, x, y, t, far, h', t');
    } else {
      OtherPacketIsNoStory(h, p, to, t, far, y.datagrams);
      OtherPacketShows(h, p, to, x, h');
    }
  }

  lemma OtherPacketIsNoStory(h: Host, p: Incoming, to: Address, t: Story, far: Story, farPackets: seq<seq<Byte>>)
    requires |p.data| >= PACKET_HEADER_SIZE_BYTES
    requires var i := FindAddress(h.connections, p.from);
             i < |h.connections| ==> !(GetPacketHeader(p.data).kind == USER_PACKET && h.connections[i].state.Connected?)
    ensures OnArrival(h, p, to, t, far, farPackets) == t
  {
  }

  /** A packet that is not read leaves the session as it is, or begins it. */
  lemma OtherPacketShows(h: Host, p: Incoming, to: Address, x: S.Endpoint, h': Host)
    requires |p.data| >= PACKET_HEADER_SIZE_BYTES && h' == Receive(h, p)
    requires InvAt(h, 0) && Shows(h, 0, to, x) && |Ups(h'.events, to)| <= 1
    requires var i := FindAddress(h.connections, p.from);
             i < |h.connections| ==> !(GetPacketHeader(p.data).kind == USER_PACKET && h.connections[i].state.Connected?)
    ensures Shows(h', 0, to, x)
  {
    var kind := GetPacketHeader(p.data).kind;
    var i := FindAddress(h.connections, p.from);
    if i == |h.connections| {
      if h' != h { AddingSpares(h, h', h'.connections[i], to); SparedStillShows(h, h', 0, 0, to, x); }
    } else if (kind == CONNECT_ACCEPT || kind == HEARTBEAT) && h.connections[i].state.Requesting? {
      assert ConnectionOk(h, i, 0);
      AnswerComesUp(h, p, i);
      AnswerOpensPeers(h, p, i);
      ComingUpShows(h, h', i, 0, to, x);
    } else {
      OtherPacketIsQuiet(h, p, i);
      QuietSpares(h, h', i, 0, to);
      SparedStillShows(h, h', 0, 0, to, x);
    }
  }

  lemma {:induction false} ActsKeepLinked(x: S.Endpoint, y: S.Endpoint, acts: seq<S.Action>)
    requires Linked(x, y)
    ensures Linked(Acts(x, y, acts), y)
  {
    if acts != [] {
      ActsKeepLinked(x, y, acts[..|acts| - 1]);
      S.ActKeepsInv(Acts(x, y, acts[..|acts| - 1]), y, acts[|acts| - 1]);
    }
  }

  lemma {:induction false} ReceiveAllShows(h: Host, batch: seq<Incoming>, to: Address, x: S.Endpoint, y: S.Endpoint,
                                           t: Story, far: Story, h': Host)
    returns (acts: seq<S.Action>)
    requires WholeHeaders(batch) && InvAt(h, 0) && h' == ReceiveAll(h, batch) && h'.created <= 65536
    requires Shows(h, 0, to, x) && Knows(x, y, t, far) && forall p | p in batch :: FromPeer(p, to, y)
    requires |Ups(h'.events, to)| <= 1
    ensures Shows(h', 0, to, Acts(x, y, acts))
    ensures var t' := OnArrivals(h, batch, to, t, far, y.datagrams); Tells(Acts(x, y, acts), t') && ShortIsSafe(y, t')
    decreases |batch|
  {
    if batch == [] {
      acts := [];
    } else {
      var most, p := batch[..|batch| - 1], batch[|batch| - 1];
      var before := ReceiveAll(h, most);
      ReceiveAllKeepsInv(h, most);
      ReceiveFollows(before, p, h');
      UpsGrow(before.events, h'.events, to);
      var first := ReceiveAllShows(h, most, to, x, y, t, far, before);
      ActsKeepLinked(x, y, first);
      var last := ReceiveShows(before, p, to, Acts(x, y, first), y, OnArrivals(h, most, to, t, far, y.datagrams), far, h',
                               OnArrivals(h, batch, to, t, far, y.datagrams));
      ActsConcat(x, y, first, last);
      acts := first + last;
    }
  }

  // ---------------------------------------------------------------------------------------------
  // Updating

  lemma NothingSaidIsUserPacket(c: Connection, now: nat)
    ensures Says(c, now) != [] ==> !IsUserPacket(Says(c, now)[0])
  {
    ControlIsNoUserPacket(CONNECT_REQUEST);
    ControlIsNoUserPacket(CONNECT_ACCEPT);
    ControlIsNoUserPacket(HEARTBEAT);
    ControlIsNoUserPacket(DISCONNECT);
  }

  lemma UpdateStateSendsNoUserPacket(h: Host, i: nat, now: nat, h': Host, to: Address)
    requires i < |h.connections| && h' == UpdateState(h, i, now)
    ensures UserPackets(h'.sent, to) == UserPackets(h.sent, to)
  {
    var c := h.connections[i];
    var said := Says(c, now);
    StateSays(h, i, now, h');
    if said != [] {
      NothingSaidIsUserPacket(c, now);
      OneMoreSent(h.sent, Outgoing(c.address, said[0]), to);
    }
  }

  lemma DecidingOpensPeers(h: Host, i: nat, now: nat)
    requires i < |h.connections| && h.connections[i].state.Deciding? && InNoTable(h, h.connections[i].id)
    ensures var id := h.connections[i].id;
            && UpdateState(h, i, now).packets == h.packets[id := NewPacketState()]
            && UpdateState(h, i, now).channels == h.channels[id := NEW_PEER_STATE]
  {
  }

  lemma UpdateStateShows(h: Host, i: nat, now: nat, h': Host, to: Address, x: S.Endpoint)
    requires i < |h.connections| && InvAt(h, i) && h' == UpdateState(h, i, now)
    requires Shows(h, i, to, x) && |Ups(h'.events, to)| <= 1
    ensures Shows(h', i, to, x)
  {
    assert ConnectionOk(h, i, i);
    UpdateStateSendsNoUserPacket(h, i, now, h', to);
    if h.connections[i].state.Deciding? {
      DecidingComesUp(h, i, now);
      DecidingOpensPeers(h, i, now);
      ComingUpShows(h, h', i, i, to, x);
    } else {
      OtherRoundIsQuiet(h, i, now);
      QuietSpares(h, h', i, i, to);
      SparedStillShows(h, h', i, i, to, x);
    }
  }

  lemma FinishRoundSpares(h: Host, i: nat, h': Host, to: Address)
    requires i < |h.connections| && InvAt(h, i) && h' == FinishRound(h, i)
    ensures Spares(h, h', i, i + 1, to)
  {
  }

  lemma UpdateOneShows(h: Host, i: nat, now: nat, h': Host, to: Address, x: S.Endpoint)
    requires i < |h.connections| && InvAt(h, i) && h' == UpdateOne(h, i, now)
    requires Shows(h, i, to, x) && |Ups(h'.events, to)| <= 1
    ensures Shows(h', i + 1, to, x)
  {
    var middle := UpdateState(h, i, now);
    UpdateStateKeepsInv(h, i, now, middle);
    FinishRoundSpares(middle, i, h', to);
    UpdateStateShows(h, i, now, middle, to, x);
    SparedStillShows(middle, h', i, i + 1, to, x);
  }

  lemma RoundTellsMore(h: Host, i: nat, now: nat, h': Host, to: Address)
    requires i < |h.connections| && h' == UpdateOne(h, i, now)
    ensures |Ups(h.events, to)| <= |Ups(h'.events, to)|
  {
    UpdateOneFollows(h, i, now, h');
    UpsGrow(h.events, h'.events, to);
  }

  lemma {:induction false} UpdateUpToShows(h: Host, k: nat, now: nat, h': Host, to: Address, x: S.Endpoint)
    requires k <= |h.connections| && InvAt(h, 0) && h' == UpdateUpTo(h, k, now)
    requires Shows(h, 0, to, x) && |Ups(h'.events, to)| <= 1
    ensures Shows(h', k, to, x)
    decreases k
  {
    if k > 0 {
      var before := UpdateUpTo(h, k - 1, now);
      UpdateUpToKeepsInv(h, k - 1, now);
      RoundTellsMore(before, k - 1, now, h', to);
      UpdateUpToShows(h, k - 1, now, before, to, x);
      UpdateOneShows(before, k - 1, now, h', to, x);
    }
  }

  lemma EraseSpares(h: Host, to: Address)
    ensures Spares(h, EraseDisconnected(h), |h.connections|, 0, to)
  {
    var h' := EraseDisconnected(h);
    RemainingMembers(h.connections);
    forall i | 0 <= i < |h'.connections| && h'.connections[i].address == to && Live(h', i, 0)
      ensures exists j | 0 <= j < |h.connections| ::
                h.connections[j].address == to && Live(h, j, |h.connections|) &&
                h.connections[j].id == h'.connections[i].id && SamePeers(h, h', h.connections[j].id)
    {
      assert h'.connections[i] in h'.connections;
      var j :| 0 <= j < |h.connections| && h.connections[j] == h'.connections[i];
      assert Live(h, j, |h.connections|);
    }
  }

  // ---------------------------------------------------------------------------------------------
  // Calls

  lemma UpIsLive(h: Host, i: nat, to: Address)
    requires Settled(h) && i < |h.connections| && h.connections[i].address == to
    ensures FindAddress(h.connections, to) == i && (IsUp(h, to) <==> Live(h, i, 0))
  {
  }

  /** Every peer hands over what it holds, and so does the endpoint if its connection is up. */
  lemma FlushShows(h: Host, to: Address, x: S.Endpoint, y: S.Endpoint, t: Story, h': Host) returns (acts: seq<S.Action>)
    requires Settled(h) && Shows(h, 0, to, x) && Tells(x, t) && |Ups(h.events, to)| <= 1 && h' == FlushHost(h)
    ensures Shows(h', 0, to, Acts(x, y, acts)) && Tells(Acts(x, y, acts), t)
  {
    acts := [];
    if IsUp(h, to) {
      acts := FlushOnce(x, y, t);
      FlushHereShows(h, FindAddress(h.connections, to), to, x, h', S.FlushAll(x));
    } else {
      NoneLive(h, to);
      FlushElsewhereShows(h, to, x, h');
    }
  }

  lemma FlushOnce(x: S.Endpoint, y: S.Endpoint, t: Story) returns (acts: seq<S.Action>)
    requires Tells(x, t)
    ensures Acts(x, y, acts) == S.FlushAll(x) && Tells(S.FlushAll(x), t)
  {
    acts := [S.Flushed];
    ActOnce(x, y, S.Flushed);
  }

  lemma FlushHereShows(h: Host, i: nat, to: Address, x: S.Endpoint, h': Host, x': S.Endpoint)
    requires Settled(h) && Shows(h, 0, to, x) && |Ups(h.events, to)| <= 1 && h' == FlushHost(h) && x' == S.FlushAll(x)
    requires i < |h.connections| && h.connections[i].address == to && Live(h, i, 0)
    ensures Shows(h', 0, to, x')
  {
    var id := h.connections[i].id;
    assert Mirrors(h, id, x) && Ups(h.events, to) == [id];
    FlushLogs(h, id, h');
    LiveStillShows(h, h', i, to, x, x');
  }

  lemma FlushElsewhereShows(h: Host, to: Address, x: S.Endpoint, h': Host)
    requires Settled(h) && Shows(h, 0, to, x) && h' == FlushHost(h)
    requires forall i | 0 <= i < |h.connections| && h.connections[i].address == to :: !Live(h, i, 0)
    ensures Shows(h', 0, to, x)
  {
    forall id | id in Ups(h.events, to)
      ensures LogOf(h'.received, id) == LogOf(h.received, id)
    {
      if id in h.channels { PeerOfUp(h, id, to); }
      assert LogOf(h.received, id) + [] == LogOf(h.received, id);
    }
  }

  lemma FlushLogs(h: Host, id: ConnectionId, h': Host)
    requires id in h.channels && h' == FlushHost(h)
    ensures Payloads(LogOf(h'.received, id), true) == Payloads(LogOf(h.received, id), true) + h.channels[id].reliableToDeliver
    ensures Payloads(LogOf(h'.received, id), false) == Payloads(LogOf(h.received, id), false) + h.channels[id].unreliableToDeliver
  {
    HandedByQueues(h.channels[id]);
    PayloadsConcat(LogOf(h.received, id), HandedBy(h.channels[id]), true);
    PayloadsConcat(LogOf(h.received, id), HandedBy(h.channels[id]), false);
  }

  lemma {:induction false} UpIsTold(events: seq<Callback>, id: ConnectionId, to: Address)
    ensures id in Ups(events, to) <==> Callback(Up, id, to) in events
    ensures id in Ups(events, to) <==> Callback(Up, id, to) in Callbacks(events, id)
  {
    if events != [] {
      var most, last := events[..|events| - 1], events[|events| - 1];
      assert events == most + [last];
      UpIsTold(most, id, to);
    }
  }

  /** An id that came up with an address and still has a peer is that of a live connection with it. */
  lemma PeerOfUp(h: Host, id: ConnectionId, to: Address)
    requires Settled(h) && id in Ups(h.events, to) && id in h.channels
    ensures exists i | 0 <= i < |h.connections| :: h.connections[i].id == id && h.connections[i].address == to && Live(h, i, 0)
  {
    UpIsTold(h.events, id, to);
    assert !Has(h.connections, id) ==> GoneOk(h, id);
    var i :| 0 <= i < |h.connections| && h.connections[i].id == id;
    assert ConnectionOk(h, i, 0);
  }

  lemma NoneLive(h: Host, to: Address)
    requires Settled(h) && !IsUp(h, to)
    ensures forall i | 0 <= i < |h.connections| && h.connections[i].address == to :: !Live(h, i, 0)
  {
    forall i | 0 <= i < |h.connections| && h.connections[i].address == to
      ensures !Live(h, i, 0)
    {
      UpIsLive(h, i, to);
    }
  }

  lemma ReceivingShows(h: Host, batch: seq<Incoming>, now: nat, to: Address, x: S.Endpoint, y: S.Endpoint,
                       t: Story, far: Story, h': Host)
    returns (acts: seq<S.Action>)
    requires Settled(h) && WholeHeaders(batch) && h' == UpdateReceiveAll(h, batch, now) && h'.created <= 65536
    requires Shows(h, 0, to, x) && Knows(x, y, t, far) && forall p | p in batch :: FromPeer(p, to, y)
    requires |Ups(h'.events, to)| <= 1
    ensures Shows(h', 0, to, Acts(x, y, acts))
    ensures var t' := OnCall(h, Receiving(batch, now), to, t, far, y.datagrams);
            Tells(Acts(x, y, acts), t') && ShortIsSafe(y, t')
  {
    var h1 := ReceiveAll(h, batch);
    var n := |h1.connections|;
    var h2 := UpdateUpTo(h1, n, now);
    var h3 := EraseDisconnected(h2);
    ReceiveAllKeepsInv(h, batch);
    UpdateUpToFollows(h1, n, now, h2);
    UpsGrow(h1.events, h2.events, to);
    UpdateUpToKeepsInv(h1, n, now);
    EraseSettles(h2);
    var received := ReceiveAllShows(h, batch, to, x, y, t, far, h1);
    var x1 := Acts(x, y, received);
    UpdateUpToShows(h1, n, now, h2, to, x1);
    EraseSpares(h2, to);
    SparedStillShows(h2, h3, n, 0, to, x1);
    UpsGrow(h1.events, h2.events, to);
    var flushed := FlushShows(h3, to, x1, y, OnArrivals(h, batch, to, t, far, y.datagrams), h');
    ActsConcat(x, y, received, flushed);
    acts := received + flushed;
  }

  /** The message is queued for this peer, or it is not. */
  lemma QueueShows(h: Host, target: Target, message: Payload, isReliable: bool, to: Address, x: S.Endpoint, y: S.Endpoint,
                   t: Story, h': Host)
    returns (acts: seq<S.Action>)
    requires Settled(h) && Shows(h, 0, to, x) && Tells(x, t) && h' == Queue(h, target, message, isReliable)
    ensures Shows(h', 0, to, Acts(x, y, acts)) && Tells(Acts(x, y, acts), OnQueue(h, target, message, isReliable, to, t))
  {
    acts := [];
    if IsUp(h, to) {
      if Addressed(target, IdOf(h, to)) {
        acts := [S.Submitted(message, isReliable)];
        ActOnce(x, y, S.Submitted(message, isReliable));
      }
      QueueHereShows(h, FindAddress(h.connections, to), target, message, isReliable, to, x, t, h', Acts(x, y, acts));
    } else {
      NoneLive(h, to);
    }
  }

  lemma QueueHereShows(h: Host, i: nat, target: Target, message: Payload, isReliable: bool, to: Address, x: S.Endpoint,
                       t: Story, h': Host, x': S.Endpoint)
    requires Settled(h) && Shows(h, 0, to, x) && Tells(x, t) && h' == Queue(h, target, message, isReliable)
    requires i == FindAddress(h.connections, to) < |h.connections| && Live(h, i, 0)
    requires x' == if Addressed(target, h.connections[i].id) then S.Submit(x, message, isReliable) else x
    ensures Shows(h', 0, to, x') && Tells(x', OnQueue(h, target, message, isReliable, to, t))
  {
    var id := h.connections[i].id;
    assert Mirrors(h, id, x);
    assert h'.channels[id] == Offered(h.channels[id], id, target, message, isReliable);
    LiveStillShows(h, h', i, to, x, x');
  }

  lemma RoundShows(h: Host, i: nat, c: Clock, to: Address, x: S.Endpoint, y: S.Endpoint, t: Story, h': Host)
    returns (acts: seq<S.Action>)
    requires Settled(h) && Shows(h, 0, to, x) && i < |h.connections| && HasData(h, i) && h' == SendPass(h, i, c)
    requires Tells(x, t)
    ensures Shows(h', 0, to, Acts(x, y, acts)) && Tells(Acts(x, y, acts), OnRound(h, i, c, to, t))
  {
    assert ConnectionOk(h, i, 0);
    acts := [];
    if h.connections[i].address == to {
      acts := [S.Emitted(c)];
      ActOnce(x, y, S.Emitted(c));
      RoundMirrors(h, i, c, x, h', S.Emit(x, c));
      RoundTells(h, i, c, x, t, S.Emit(x, c));
      LiveStillShows(h, h', i, to, x, S.Emit(x, c));
    } else {
      RoundElsewhereSpares(h, i, c, to, h');
      SparedStillShows(h, h', 0, 0, to, x);
    }
  }

  lemma RoundTells(h: Host, i: nat, c: Clock, x: S.Endpoint, t: Story, x': S.Endpoint)
    requires i < |h.connections| && HasData(h, i) && Mirrors(h, h.connections[i].id, x) && Tells(x, t) && x' == S.Emit(x, c)
    ensures Tells(x', OnRound(h, i, c, h.connections[i].address, t))
  {
  }

  /** The packet of a round. */
  lemma RoundSends(h: Host, i: nat, c: Clock, to: Address, h': Host)
    requires i < |h.connections| && HasData(h, i) && h' == SendPass(h, i, c)
    ensures var id := h.connections[i].id;
            var header := NextHeader(h, id);
            var data := PutPacket(header, WritePacket(h.channels[id], PACKET_HEADER_SIZE_BYTES, header.sequenceNum, c).entries);
            UserPackets(h'.sent, to) == UserPackets(h.sent, to) + (if h.connections[i].address == to then [data] else [])
  {
  }

  lemma RoundMirrors(h: Host, i: nat, c: Clock, x: S.Endpoint, h': Host, x': S.Endpoint)
    requires i < |h.connections| && HasData(h, i) && h' == SendPass(h, i, c) && x' == S.Emit(x, c)
    requires Mirrors(h, h.connections[i].id, x) && UserPackets(h.sent, h.connections[i].address) == x.datagrams
    ensures Mirrors(h', h.connections[i].id, x') && UserPackets(h'.sent, h.connections[i].address) == x'.datagrams
  {
  }

  lemma RoundElsewhereSpares(h: Host, i: nat, c: Clock, to: Address, h': Host)
    requires InvAt(h, 0) && i < |h.connections| && HasData(h, i) && h' == SendPass(h, i, c)
    requires h.connections[i].address != to
    ensures Spares(h, h', 0, 0, to)
  {
  }

  lemma DisconnectSpares(h: Host, id: ConnectionId, to: Address)
    ensures Spares(h, Disconnect(h, id), 0, 0, to)
  {
  }

  lemma DoShows(h: Host, call: Call, to: Address, x: S.Endpoint, y: S.Endpoint, t: Story, far: Story, h': Host, t': Story)
    returns (acts: seq<S.Action>)
    requires Settled(h) && h' == Do(h, call) && h'.created <= 65536
    requires Shows(h, 0, to, x) && Knows(x, y, t, far)
    requires call.Receiving? ==> forall p | p in call.batch :: FromPeer(p, to, y)
    requires |Ups(h'.events, to)| <= 1
    requires t' == OnCall(h, call, to, t, far, y.datagrams)
    ensures Shows(h', 0, to, Acts(x, y, acts)) && Tells(Acts(x, y, acts), t') && ShortIsSafe(y, t')
  {
    acts := [];
    match call
    case Receiving(batch, now) =>
      if WholeHeaders(batch) { acts := ReceivingShows(h, batch, now, to, x, y, t, far, h'); }
    case Sending(target, message, isReliable) =>
      acts := QueueShows(h, target, message, isReliable, to, x, y, t, h');
    case SendRound(i, c) =>
      if i < |h.connections| && HasData(h, i) { acts := RoundShows(h, i, c, to, x, y, t, h'); }
    case _ => OtherCallSpares(h, call, to, x, h');
  }

  lemma OtherCallSpares(h: Host, call: Call, to: Address, x: S.Endpoint, h': Host)
    requires Settled(h) && h' == Do(h, call) && Shows(h, 0, to, x)
    requires call.ConnectTo? || call.DisconnectFrom? || call.SendDone?
    ensures Shows(h', 0, to, x)
  {
    if h' != h {
      match call
      case ConnectTo(_) => AddingSpares(h, h', h'.connections[|h.connections|], to);
      case DisconnectFrom(id) => DisconnectSpares(h, id, to);
      case SendDone(i, _) => QuietSpares(h, h', i, 0, to);
      SparedStillShows(h, h', 0, 0, to, x);
    }
  }

  // ---------------------------------------------------------------------------------------------
  // Two hosts of the world

  /** Each end has come up with the other at most once, and neither has used up its ids. */
  predicate OneSession(w: World, a: Address, b: Address) {
    && a in w && b in w && a != b
    && |Ups(w[a].events, b)| <= 1 && |Ups(w[b].events, a)| <= 1
    && w[a].created <= 65536 && w[b].created <= 65536
  }

  ghost predicate ShowsBoth(w: World, a: Address, b: Address, pair: S.World) {
    a in w && b in w && Shows(w[a], 0, b, pair.a) && Shows(w[b], 0, a, pair.b)
  }

  /** One side of the pair performs some actions. */
  function After(pair: S.World, acts: seq<S.Action>, byA: bool): S.World {
    if byA then pair.(a := Acts(pair.a, pair.b, acts)) else pair.(b := Acts(pair.b, pair.a, acts))
  }

  lemma AfterOneMore(pair: S.World, acts: seq<S.Action>, last: S.Action, byA: bool)
    ensures After(pair, acts + [last], byA) == S.Next(After(pair, acts, byA), S.Move(byA, last))
  {
  }

  lemma {:induction false} PlayOneMore(moves: seq<S.Move>, pair: S.World, acts: seq<S.Action>, last: S.Action, byA: bool)
    returns (more: seq<S.Move>)
    requires S.Play(moves) == After(pair, acts, byA)
    ensures S.Play(more) == After(pair, acts + [last], byA)
  {
    more := moves + [S.Move(byA, last)];
    S.PlayMore(moves, S.Move(byA, last));
    AfterOneMore(pair, acts, last, byA);
  }

  lemma {:induction false} PlayActs(moves: seq<S.Move>, acts: seq<S.Action>, byA: bool) returns (more: seq<S.Move>)
    ensures S.Play(more) == After(S.Play(moves), acts, byA)
    decreases |acts|
  {
    if acts == [] {
      more := moves;
    } else {
      var most, last := acts[..|acts| - 1], acts[|acts| - 1];
      more := PlayActs(moves, most, byA);
      more := PlayOneMore(more, S.Play(moves), most, last, byA);
      assert acts == most + [last];
    }
  }

  /** What the network can bring from the one host of a session to the other, the session's network can. */
  lemma DeliverableIsFromPeer(w: World, at: Address, from: Address, batch: seq<Incoming>, y: S.Endpoint)
    requires from in w && Deliverable(w, at, batch) && UserPackets(w[from].sent, at) == y.datagrams
    ensures forall p | p in batch :: FromPeer(p, from, y)
  {
    forall p | p in batch && p.from == from && IsUserPacket(p.data)
      ensures p.data in y.datagrams
    {
      UserPacketWasSent(w[from].sent, at, p.data);
    }
  }

  /** The stories after a step. */
  function StoryAfter(w: World, s: Step, at: Address, to: Address, t: Story, far: Story): Story {
    if s.who == at && Performed(w, s) then OnCall(w[at], s.call, to, t, far, PacketsFor(w, to, at)) else t
  }

  ghost predicate TellsBoth(pair: S.World, ta: Story, tb: Story) {
    Tells(pair.a, ta) && Tells(pair.b, tb) && ShortIsSafe(pair.b, ta) && ShortIsSafe(pair.a, tb)
  }

  /** A step of the world is some moves of the session. */
  lemma StepShows(w: World, s: Step, a: Address, b: Address, moves: seq<S.Move>, ta: Story, tb: Story)
    returns (more: seq<S.Move>)
    requires OneSession(Next(w, s), a, b) && a in w && b in w && Settled(w[a]) && Settled(w[b])
    requires ShowsBoth(w, a, b, S.Play(moves)) && TellsBoth(S.Play(moves), ta, tb)
    ensures ShowsBoth(Next(w, s), a, b, S.Play(more))
    ensures TellsBoth(S.Play(more), StoryAfter(w, s, a, b, ta, tb), StoryAfter(w, s, b, a, tb, ta))
  {
    var w' := Next(w, s);
    var pair := S.Play(moves);
    S.PlayKeepsInv(moves);
    more := moves;
    if s.who == a && Performed(w, s) {
      if s.call.Receiving? { DeliverableIsFromPeer(w, a, b, s.call.batch, pair.b); }
      var acts := DoShows(w[a], s.call, b, pair.a, pair.b, ta, tb, w'[a], StoryAfter(w, s, a, b, ta, tb));
      ToldGrows(w[a], s.call, b, ta, tb, pair.b.datagrams);
      more := PlayActs(moves, acts, true);
    } else if s.who == b && Performed(w, s) {
      if s.call.Receiving? { DeliverableIsFromPeer(w, b, a, s.call.batch, pair.a); }
      var acts := DoShows(w[b], s.call, a, pair.b, pair.a, tb, ta, w'[b], StoryAfter(w, s, b, a, tb, ta));
      ToldGrows(w[b], s.call, a, tb, ta, pair.a.datagrams);
      more := PlayActs(moves, acts, false);
    }
  }

  lemma {:induction false} ArrivalsAcceptNothing(h: Host, batch: seq<Incoming>, to: Address, t: Story, far: Story, farPackets: seq<seq<Byte>>)
    requires WholeHeaders(batch)
    ensures OnArrivals(h, batch, to, t, far, farPackets).accepted == t.accepted
  {
    if batch != [] { ArrivalsAcceptNothing(h, batch[..|batch| - 1], to, t, far, farPackets); }
  }

  lemma ToldGrows(h: Host, call: Call, to: Address, t: Story, far: Story, farPackets: seq<seq<Byte>>)
    ensures |OnCall(h, call, to, t, far, farPackets).accepted| >= |t.accepted|
  {
    if call.Receiving? && WholeHeaders(call.batch) {
      ArrivalsAcceptNothing(h, call.batch, to, t, far, farPackets);
    }
  }

  lemma NewHostShows(isServer: bool, to: Address)
    ensures Shows(NewHost(isServer), 0, to, S.NewEndpoint()) && Settled(NewHost(isServer))
  {
  }

  lemma StepGrows(w: World, s: Step, x: Address, to: Address)
    requires x in w && Settled(w[x]) && x in Next(w, s) && Next(w, s)[x].created <= 65536
    ensures |Ups(w[x].events, to)| <= |Ups(Next(w, s)[x].events, to)| && w[x].created <= 65536
    ensures Settled(Next(w, s)[x])
  {
    if Next(w, s)[x] != w[x] {
      DoCreates(w[x], s.call);
      DoFollows(w[x], s.call);
      DoSettles(w[x], s.call);
      UpsGrow(w[x].events, Next(w, s)[x].events, to);
    }
  }

  lemma {:induction false} CreatedGrows(w: World, s: Step, x: Address)
    requires x in w
    ensures x in Next(w, s) && w[x].created <= Next(w, s)[x].created
  {
    if Next(w, s)[x] != w[x] {
      DoCreates(w[x], s.call);
    }
  }

  lemma {:induction false} HostsStaySettled(w0: World, steps: seq<Step>, x: Address)
    requires Started(w0) && x in w0
    ensures x in Play(w0, steps) && (Play(w0, steps)[x].created <= 65536 ==> Settled(Play(w0, steps)[x]))
  {
    if steps == [] {
      NewHostIsSettled(w0[x].isServer);
    } else {
      var w, s := Play(w0, steps[..|steps| - 1]), steps[|steps| - 1];
      HostsStaySettled(w0, steps[..|steps| - 1], x);
      CreatedGrows(w, s, x);
      if Next(w, s)[x].created <= 65536 { StepGrows(w, s, x, x); }
    }
  }

  /** The pair is these two hosts: its endpoints' states are their peers, its datagrams the user packets
      they sent, its histories their stories. */
  ghost predicate IsSession(w0: World, steps: seq<Step>, a: Address, b: Address, pair: S.World) {
    ShowsBoth(Play(w0, steps), a, b, pair) && TellsBoth(pair, StoryOf(w0, steps, a, b), StoryOf(w0, steps, b, a))
  }

  /** In every reachable state of the world, two hosts that have come up with each other at most once are
      the two endpoints of a reachable state of the session system. */
  lemma {:induction false} WorldIsSession(w0: World, steps: seq<Step>, a: Address, b: Address)
    returns (moves: seq<S.Move>)
    requires Started(w0) && OneSession(Play(w0, steps), a, b)
    ensures IsSession(w0, steps, a, b, S.Play(moves))
  {
    if steps == [] {
      moves := [];
      NewHostShows(w0[a].isServer, b);
      NewHostShows(w0[b].isServer, a);
    } else {
      var most, s := steps[..|steps| - 1], steps[|steps| - 1];
      BeforeOneSession(w0, steps, a, b);
      var before := WorldIsSession(w0, most, a, b);
      moves := StepShows(Play(w0, most), s, a, b, before, StoryOf(w0, most, a, b), StoryOf(w0, most, b, a));
    }
  }

  lemma BeforeOneSession(w0: World, steps: seq<Step>, a: Address, b: Address)
    requires steps != [] && Started(w0) && OneSession(Play(w0, steps), a, b)
    ensures var w := Play(w0, steps[..|steps| - 1]);
            OneSession(w, a, b) && Settled(w[a]) && Settled(w[b])
  {
    var w, s := Play(w0, steps[..|steps| - 1]), steps[|steps| - 1];
    PlayKeepsWorld(w0, steps);
    HostsStaySettled(w0, steps[..|steps| - 1], a);
    HostsStaySettled(w0, steps[..|steps| - 1], b);
    CreatedGrows(w, s, a);
    CreatedGrows(w, s, b);
    StepGrows(w, s, a, b);
    StepGrows(w, s, b, a);
  }

  // ---------------------------------------------------------------------------------------------
  // What the users see

  /** The hosts hold back nothing between calls. */
  predicate NothingWaits(h: Host) {
    forall id | id in h.channels :: h.channels[id].reliableToDeliver == [] && h.channels[id].unreliableToDeliver == []
  }

  lemma {:induction false} HostsHoldNothing(w0: World, steps: seq<Step>, x: Address)
    requires Started(w0) && x in w0
    ensures x in Play(w0, steps) && NothingWaits(Play(w0, steps)[x])
  {
    if steps != [] {
      HostsHoldNothing(w0, steps[..|steps| - 1], x);
      CallHoldsNothing(Play(w0, steps[..|steps| - 1])[x], steps[|steps| - 1].call);
    }
  }

  lemma CallHoldsNothing(h: Host, call: Call)
    requires NothingWaits(h)
    ensures NothingWaits(Do(h, call))
  {
  }

  /** What the user of `at` was handed by the host at `from` in the session that began with this id. */
  function HandedOver(w: World, at: Address, id: ConnectionId, reliable: bool): seq<Payload>
    requires at in w
  {
    Payloads(LogOf(w[at].received, id), reliable)
  }

  /** The log of a session that began, in terms of the endpoint. */
  lemma LogIsPopped(h: Host, to: Address, x: S.Endpoint, id: ConnectionId)
    requires Shows(h, 0, to, x) && Callback(Up, id, to) in h.events
    ensures Payloads(LogOf(h.received, id), true) == x.popped && Payloads(LogOf(h.received, id), false) == x.poppedUnreliable
  {
    UpIsTold(h.events, id, to);
  }

  lemma UpHoldsNothing(h: Host, to: Address, x: S.Endpoint)
    requires Settled(h) && Shows(h, 0, to, x) && IsUp(h, to) && NothingWaits(h)
    ensures x.peer.reliableToDeliver == [] && x.peer.unreliableToDeliver == []
    ensures IdOf(h, to) in h.channels && h.channels[IdOf(h, to)] == x.peer && Callback(Up, IdOf(h, to), to) in h.events
  {
    var i := FindAddress(h.connections, to);
    UpIsLive(h, i, to);
    assert Mirrors(h, h.connections[i].id, x);
    UpIsTold(h.events, h.connections[i].id, to);
  }

  /** The user of `b` is handed reliable messages from `a` exactly as the user of `a` sent them: in
      order, once each, without a gap, if every user packet that `b` read from `a` met the arrival
      condition. */
  lemma UsersSeeOrder(w0: World, steps: seq<Step>, a: Address, b: Address, id: ConnectionId)
    requires Started(w0) && OneSession(Play(w0, steps), a, b)
    requires Callback(Up, id, a) in Play(w0, steps)[b].events
    requires StoryOf(w0, steps, b, a).safe
    ensures HandedOver(Play(w0, steps), b, id, true) <= StoryOf(w0, steps, a, b).accepted
  {
    var moves := WorldIsSession(w0, steps, a, b);
    var pair := S.Play(moves);
    Guarantees.DeliveryIsInOrder(moves);
    LogIsPopped(Play(w0, steps)[b], a, pair.b, id);
    assert pair.b.popped <= S.Delivered(pair.b);
  }

  /** With at most 32769 reliable messages, every packet met the condition exactly if the first reliable
      message that `b` read from `a` had sequence number 0; so nothing else is needed for order. */
  lemma ShortSessionsSeeOrder(w0: World, steps: seq<Step>, a: Address, b: Address, id: ConnectionId)
    requires Started(w0) && OneSession(Play(w0, steps), a, b)
    requires Callback(Up, id, a) in Play(w0, steps)[b].events
    requires |StoryOf(w0, steps, a, b).accepted| <= 32769
    ensures var t := StoryOf(w0, steps, b, a);
            && (t.safe <==> t.zeroFirst)
            && (t.zeroFirst ==> HandedOver(Play(w0, steps), b, id, true) <= StoryOf(w0, steps, a, b).accepted)
  {
    var moves := WorldIsSession(w0, steps, a, b);
    if StoryOf(w0, steps, b, a).safe { UsersSeeOrder(w0, steps, a, b, id); }
  }

  /** When the queue for `b` has run empty at `a`, the user of `b` was handed exactly what the user of `a`
      sent, if `b` is still up with `a`, `a` sent `b` at most 1025 user packets, every user packet that `b`
      read from `a` met the arrival condition, and no header that `a` read from `b` reported packet 0 while
      a message was queued unwritten. */
  lemma UsersSeeEverything(w0: World, steps: seq<Step>, a: Address, b: Address)
    requires Started(w0) && OneSession(Play(w0, steps), a, b)
    requires var w := Play(w0, steps);
             && |UserPackets(w[a].sent, b)| <= 1025 && IsUp(w[b], a)
             && IsUp(w[a], b) && IdOf(w[a], b) in w[a].channels && w[a].channels[IdOf(w[a], b)].reliable == []
    requires StoryOf(w0, steps, b, a).safe && StoryOf(w0, steps, a, b).intact
    ensures var w := Play(w0, steps); HandedOver(w, b, IdOf(w[b], a), true) == StoryOf(w0, steps, a, b).accepted
  {
    var moves := WorldIsSession(w0, steps, a, b);
    var w, pair := Play(w0, steps), S.Play(moves);
    EndsHoldNothing(w0, steps, a, b, pair);
    S.PlayKeepsInv(moves);
    LogIsPopped(w[b], a, pair.b, IdOf(w[b], a));
    Guarantees.EmptyQueueMeansAllDelivered(moves);
  }

  lemma EndsHoldNothing(w0: World, steps: seq<Step>, a: Address, b: Address, pair: S.World)
    requires Started(w0) && OneSession(Play(w0, steps), a, b) && IsSession(w0, steps, a, b, pair)
    ensures var w := Play(w0, steps);
            && (IsUp(w[a], b) ==> IdOf(w[a], b) in w[a].channels && w[a].channels[IdOf(w[a], b)] == pair.a.peer)
            && (IsUp(w[b], a) ==> Callback(Up, IdOf(w[b], a), a) in w[b].events
                                  && pair.b.peer.reliableToDeliver == [] && pair.b.peer.unreliableToDeliver == [])
  {
    var w := Play(w0, steps);
    PlayKeepsWorld(w0, steps);
    HostsStaySettled(w0, steps, a);
    HostsStaySettled(w0, steps, b);
    HostsHoldNothing(w0, steps, a);
    HostsHoldNothing(w0, steps, b);
    if IsUp(w[a], b) { UpHoldsNothing(w[a], b, pair.a); }
    if IsUp(w[b], a) { UpHoldsNothing(w[b], a, pair.b); }
  }

  /** The unreliable messages.  The packets that went from `a` to `b` carry, in order, what the user of `a`
      sent, except what is still queued.  The packets that `b` read are some of these.  What they carried, in
      the order in which they were read, is what the user of `b` was handed, except what the end of the
      connection cut off. */
  lemma UsersSeeUnreliable(w0: World, steps: seq<Step>, a: Address, b: Address, id: ConnectionId)
    requires Started(w0) && OneSession(Play(w0, steps), a, b)
    requires Callback(Up, id, a) in Play(w0, steps)[b].events
    ensures var w := Play(w0, steps);
            var sent, read := UserPackets(w[a].sent, b), StoryOf(w0, steps, b, a).taken;
            var accepted := StoryOf(w0, steps, a, b).acceptedUnreliable;
            && UnreliableInAll(sent) <= accepted
            && (IsUp(w[a], b) ==> IdOf(w[a], b) in w[a].channels
                                  && UnreliableInAll(sent) + w[a].channels[IdOf(w[a], b)].unreliable == accepted)
            && (forall data | data in read :: data in sent)
            && HandedOver(w, b, id, false) <= UnreliableInAll(read)
            && (IsUp(w[b], a) ==> HandedOver(w, b, id, false) == UnreliableInAll(read))
  {
    var moves := WorldIsSession(w0, steps, a, b);
    var w, pair := Play(w0, steps), S.Play(moves);
    UnreliableFlow(moves);
    EndsHoldNothing(w0, steps, a, b, pair);
    LogIsPopped(w[b], a, pair.b, id);
    assert pair.b.poppedUnreliable + [] == pair.b.poppedUnreliable;
  }
}
