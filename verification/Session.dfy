/** Two endpoints of one session and the network between them.  The network keeps every datagram ever
    sent and may deliver any of them any number of times, in any order, or never. */
module Session {
  import opened SequenceNumbers
  import opened PacketAcks
  import opened Bytes
  import opened Packing
  import opened Channels
  import opened OrderedChannel

  // ---------------------------------------------------------------------------------------------
  // State

  /** History of one user packet: its ack fields and messages, the unbounded numbers of its reliable
      messages, and what its sender had received when it was written. */
  datatype PacketRecord = PacketRecord(
    ack: SequenceNumber, bits: AckBits, entries: seq<Entry>, numbers: seq<nat>, seen: set<nat>, highest: int)

  /** `peer` and `acks.st` are the state of the code, `datagrams` is what went to the network.  The rest
      is history: the reliable messages accepted so far (their index is their unbounded number), the
      numbers of the queued ones, of those written into some packet, of those that arrived here, and of
      those an ack removed before they were ever written; what was already handed to the user; whether
      every arrival met the arrival condition; the unreliable messages accepted so far and those already
      handed to the user; and the datagrams that were read, in order. */
  datatype Endpoint = Endpoint(
    peer: PeerState, acks: History, datagrams: seq<seq<Byte>>,
    accepted: seq<Payload>, numbers: seq<nat>, records: seq<PacketRecord>, highest: int,
    written: set<nat>, handed: set<nat>, lost: set<nat>, popped: seq<Payload>, ordered: bool,
    acceptedUnreliable: seq<Payload>, poppedUnreliable: seq<Payload>, taken: seq<seq<Byte>>)

  function NewEndpoint(): Endpoint {
    Endpoint(NEW_PEER_STATE, NewHistory(), [], [], [], [], -1, {}, {}, {}, [], true, [], [], [])
  }

  /** Every reliable message handed over for delivery so far. */
  function Delivered(x: Endpoint): seq<Payload> {
    x.popped + x.peer.reliableToDeliver
  }

  function FullInbox(x: Endpoint): Inbox {
    Inbox(x.peer.last, x.peer.store, Delivered(x))
  }

  function SetOf(s: seq<nat>): set<nat> {
    set n | n in s
  }

  // ---------------------------------------------------------------------------------------------
  // Steps

  /** The user sends a message. */
  function Submit(x: Endpoint, message: Payload, isReliable: bool): Endpoint {
    var peer := Accept(x.peer, message, isReliable);
    if |message| > MAX_MESSAGE_SIZE_BYTES then x.(peer := peer)
    else if isReliable then
      x.(peer := peer, accepted := x.accepted + [message], numbers := x.numbers + [|x.accepted|])
    else x.(peer := peer, acceptedUnreliable := x.acceptedUnreliable + [message])
  }

  /** The numbers of the messages that DueEntries picks. */
  function DueNumbers(q: seq<ReliableMessage>, numbers: seq<nat>, c: Clock): seq<nat>
    requires |q| == |numbers|
  {
    if q == [] then []
    else (if Due(q[0], c) then [numbers[0]] else []) + DueNumbers(q[1..], numbers[1..], c)
  }

  /** The numbers of the messages that the next packet takes from a queue. */
  function NumbersTaken(q: seq<ReliableMessage>, numbers: seq<nat>, c: Clock): seq<nat> {
    var stop := WalkReliable(q, 0, PACKET_HEADER_SIZE_BYTES, c).stop;
    if stop <= |numbers| then DueNumbers(q[..stop], numbers[..stop], c) else []
  }

  function WrittenNumbers(x: Endpoint, c: Clock): seq<nat> {
    NumbersTaken(x.peer.reliable, x.numbers, c)
  }

  /** One pass of the send loop: a packet is numbered, filled and sent. */
  function Emit(x: Endpoint, c: Clock): Endpoint {
    if !HasDataToSend(x.peer) then x
    else
      var (st, s, ack, bits) := SendPacket(x.acks.st);
      var w := WritePacket(x.peer, PACKET_HEADER_SIZE_BYTES, s, c);
      var numbers := WrittenNumbers(x, c);
      x.(peer := w.st,
         acks := Step(x.acks, Sent),
         datagrams := x.datagrams + [PutPacket(PacketHeader(USER_PACKET, s, ack, bits), w.entries)],
         records := x.records + [PacketRecord(ack, bits, w.entries, numbers, x.acks.arrived, x.highest)],
         written := x.written + SetOf(numbers))
  }

  /** Messages, then acks: the two calls of the USER_PACKET case. */
  function ReadPacket(x: Endpoint, n: nat, h: PacketHeader, entries: seq<Entry>): Endpoint {
    var (st, reported) := ReceiveHeader(x.acks.st, h.sequenceNum, h.ack, h.ackBits);
    var peer := ReceiveEntries(x.peer, entries);
    var removed := PacketsAcked(x, reported);
    x.(peer := RemoveAcked(peer, reported),
       acks := x.acks.(st := st, arrived := x.acks.arrived + {n},
                       reported := x.acks.reported + Owners(x.acks.sent, reported)),
       highest := Max(x.highest, n),
       numbers := removed.0,
       lost := x.lost + removed.1)
  }

  /** The numbers that stay queued after a report, and the numbers it removes unwritten. */
  function NumbersLeft(q: seq<ReliableMessage>, numbers: seq<nat>, written: set<nat>, reported: set<SequenceNumber>): (seq<nat>, set<nat>) {
    if |numbers| != |q| then ([], {})
    else
      var kept := Select(numbers, Kept(q, reported, 0));
      (kept, (set k | k in numbers && k !in kept) - written)
  }

  function PacketsAcked(x: Endpoint, reported: set<SequenceNumber>): (seq<nat>, set<nat>) {
    NumbersLeft(x.peer.reliable, x.numbers, x.written, reported)
  }

  /** Every one of the numbers meets the arrival condition when it comes. */
  predicate AllSafe(box: Inbox, numbers: seq<nat>, log: seq<Payload>)
    decreases |numbers|
  {
    numbers == [] ||
    (numbers[0] < |log| &&
     (Safe(|box.queue| - 1, numbers[0]) || Shadowed(box, |box.queue| - 1, numbers[0])) &&
     AllSafe(Receive(box, Wire(numbers[0]), log[numbers[0]]), numbers[1..], log))
  }

  /** Datagram `n` of `y` reaches `x`. */
  function TakeDelivery(x: Endpoint, y: Endpoint, n: nat): Endpoint {
    if n >= |y.datagrams| || n >= |y.records| then x
    else
      var data := y.datagrams[n];
      if |data| < PACKET_HEADER_SIZE_BYTES || GetEntries(data, PACKET_HEADER_SIZE_BYTES).None? then x
      else
        var x' := ReadPacket(x, n, GetPacketHeader(data), GetEntries(data, PACKET_HEADER_SIZE_BYTES).value);
        x'.(handed := x.handed + SetOf(y.records[n].numbers),
            ordered := x.ordered && AllSafe(FullInbox(x), y.records[n].numbers, y.accepted),
            taken := x.taken + [data])
  }

  /** The user's receive callback runs for everything queued. */
  function FlushAll(x: Endpoint): Endpoint {
    x.(peer := Flush(x.peer), popped := Delivered(x),
       poppedUnreliable := x.poppedUnreliable + x.peer.unreliableToDeliver)
  }

  datatype Action = Submitted(message: Payload, isReliable: bool) | Emitted(c: Clock) | Delivery(n: nat) | Flushed

  function Act(x: Endpoint, y: Endpoint, a: Action): Endpoint {
    match a
    case Submitted(message, isReliable) => Submit(x, message, isReliable)
    case Emitted(c) => Emit(x, c)
    case Delivery(n) => TakeDelivery(x, y, n)
    case Flushed => FlushAll(x)
  }

  datatype World = World(a: Endpoint, b: Endpoint)

  datatype Move = Move(byA: bool, action: Action)

  function Next(w: World, m: Move): World {
    if m.byA then w.(a := Act(w.a, w.b, m.action)) else w.(b := Act(w.b, w.a, m.action))
  }

  ghost function Play(moves: seq<Move>): World {
    if moves == [] then World(NewEndpoint(), NewEndpoint())
    else Next(Play(moves[..|moves| - 1]), moves[|moves| - 1])
  }

  lemma {:induction false} PlayMore(moves: seq<Move>, m: Move)
    ensures Play(moves + [m]) == Next(Play(moves), m)
  {
  }

  // ---------------------------------------------------------------------------------------------
  // Invariants

  /** Packet `n`: the bytes on the network are its header and messages; its reliable messages are the
      accepted ones with its numbers. */
  ghost predicate PacketOk(x: Endpoint, n: nat)
    requires n < |x.records| == |x.datagrams|
  {
    var r := x.records[n];
    && (forall e | e in r.entries :: Encodable(e))
    && x.datagrams[n] == PutPacket(PacketHeader(USER_PACKET, Wire(n), r.ack, r.bits), r.entries)
    && |r.numbers| <= |r.entries|
    && (forall j | 0 <= j < |r.entries| ::
          if j < |r.numbers| then
            r.numbers[j] < |x.accepted| && r.numbers[j] in x.written &&
            r.entries[j] == Entry(Wire(r.numbers[j]), RELIABLE_CHANNEL_ID, x.accepted[r.numbers[j]])
          else r.entries[j].channelId == UNRELIABLE_CHANNEL_ID)
  }

  /** Queued message `m` is accepted message `k`; once written, its record names a packet carrying it. */
  ghost predicate ItemOk(x: Endpoint, m: ReliableMessage, k: nat) {
    && k < |x.accepted|
    && m.sequenceNum == Wire(k) && m.message == x.accepted[k]
    && (k !in x.written ==> m.packetSequenceNum == 0)
    && (k in x.written ==> exists n | 0 <= n < |x.records| :: m.packetSequenceNum == Wire(n) && LastCarrier(x, k, n))
  }

  /** Packet `n` carries message `k` and no later packet does. */
  ghost predicate LastCarrier(x: Endpoint, k: nat, n: nat)
    requires n < |x.records|
  {
    k in x.records[n].numbers && forall m | n < m < |x.records| :: k !in x.records[m].numbers
  }

  ghost predicate QueueOk(x: Endpoint) {
    && |x.numbers| == |x.peer.reliable|
    && (forall i | 0 <= i < |x.numbers| :: ItemOk(x, x.peer.reliable[i], x.numbers[i]))
    && (forall i, j | 0 <= i < j < |x.numbers| :: x.numbers[i] < x.numbers[j])
    && x.peer.generator == Wire(|x.accepted|)
    && (forall k | 0 <= k < |x.accepted| :: |x.accepted[k]| <= MAX_MESSAGE_SIZE_BYTES)
    && (forall m | m in x.peer.unreliable :: |m| <= MAX_MESSAGE_SIZE_BYTES)
    && (forall k | k in x.written :: k < |x.accepted|)
    && (forall k | k in x.lost :: k < |x.accepted| && k !in x.written && k !in x.numbers)
  }

  ghost predicate SenderOk(x: Endpoint) {
    && |x.datagrams| == |x.records| == x.acks.sent
    && Meaning(x.acks)
    && (forall n | 0 <= n < |x.records| :: PacketOk(x, n))
    && QueueOk(x)
  }

  ghost predicate IsHighest(h: int, s: set<nat>) {
    && (h == -1 || (h >= 0 && h in s))
    && (forall n | n in s :: n <= h)
  }

  /** What the ack fields of a packet mean: `far` packets had been sent the other way. */
  ghost predicate RecordAcksOk(r: PacketRecord, arrived: set<nat>, far: nat) {
    && r.seen <= arrived
    && IsHighest(r.highest, r.seen)
    && (far <= 32767 ==> r.ack == Wire(r.highest))
    && (forall i: nat | 1 <= i <= 32 ::
          Bit(r.bits, 32 - i) <==> SomeInSlot(r.seen, Slot(Back(r.ack, i))))
  }

  /** The direction from `x` to `y`. */
  ghost predicate Link(x: Endpoint, y: Endpoint) {
    && (forall n | n in y.acks.arrived :: n < |x.records| && SetOf(x.records[n].numbers) <= y.handed)
    && y.handed <= x.written
    && IsHighest(y.highest, y.acks.arrived)
    && (|x.records| <= 32767 ==> y.acks.st.received == Wire(y.highest))
    && (forall m | 0 <= m < |y.records| :: RecordAcksOk(y.records[m], y.acks.arrived, |x.records|))
    && (y.ordered ==> InOrder(FullInbox(y), x.accepted, y.handed))
    && (|x.records| <= 1025 ==> forall k | 0 <= k < |x.accepted| :: k in x.numbers || k in y.handed || k in x.lost)
  }

  ghost predicate Inv(w: World) {
    SenderOk(w.a) && SenderOk(w.b) && Link(w.a, w.b) && Link(w.b, w.a)
  }

  // ---------------------------------------------------------------------------------------------
  // The steps that stay local

  /** The receiving half of an endpoint did not move. */
  ghost predicate SameReceiver(y: Endpoint, y': Endpoint) {
    && y'.acks.arrived == y.acks.arrived && y'.acks.st.received == y.acks.st.received
    && y'.handed == y.handed && y'.highest == y.highest && y'.ordered == y.ordered
    && FullInbox(y') == FullInbox(y)
  }

  lemma ReceiverFrame(x: Endpoint, y: Endpoint, y': Endpoint)
    requires Link(x, y) && SameReceiver(y, y')
    requires y'.records == y.records
    ensures Link(x, y')
  {
  }

  lemma LongerLogKeepsOrder(box: Inbox, log: seq<Payload>, more: seq<Payload>, got: set<nat>)
    requires InOrder(box, log, got)
    ensures InOrder(box, log + more, got)
  {
  }

  /** Packets stay as they are while histories grow. */
  lemma OldPacketsOk(x: Endpoint, x': Endpoint)
    requires |x.records| == |x.datagrams| && |x'.records| == |x'.datagrams|
    requires x.records <= x'.records && x.datagrams <= x'.datagrams && x.accepted <= x'.accepted && x.written <= x'.written
    requires forall n | 0 <= n < |x.records| :: PacketOk(x, n)
    ensures forall n | 0 <= n < |x.records| :: PacketOk(x', n)
  {
    forall n | 0 <= n < |x.records|
      ensures PacketOk(x', n)
    {
      assert PacketOk(x, n);
      assert x'.records[n] == x.records[n] && x'.datagrams[n] == x.datagrams[n];
    }
  }

  lemma SubmitKeepsSender(x: Endpoint, y: Endpoint, message: Payload, isReliable: bool)
    requires SenderOk(x) && Link(x, y)
    ensures SenderOk(Submit(x, message, isReliable)) && Link(Submit(x, message, isReliable), y)
  {
    var x' := Submit(x, message, isReliable);
    OldPacketsOk(x, x');
    if isReliable && |message| <= MAX_MESSAGE_SIZE_BYTES {
      SubmitKeepsQueue(x, message);
      SubmitKeepsLink(x, y, message, x');
    }
  }

  lemma SubmitKeepsLink(x: Endpoint, y: Endpoint, message: Payload, x': Endpoint)
    requires Link(x, y) && x' == Submit(x, message, true) && |message| <= MAX_MESSAGE_SIZE_BYTES
    ensures Link(x', y)
  {
    if y.ordered {
      LongerLogKeepsOrder(FullInbox(y), x.accepted, [message], y.handed);
    }
    assert |x.accepted| in x'.numbers;
    assert forall k | k in x.numbers :: k in x'.numbers;
  }

  lemma SubmitKeepsQueue(x: Endpoint, message: Payload)
    requires QueueOk(x) && |message| <= MAX_MESSAGE_SIZE_BYTES
    ensures QueueOk(Submit(x, message, true))
  {
    var x' := Submit(x, message, true);
    WireOfWire(|x.accepted|, 1);
    forall i | 0 <= i < |x'.numbers|
      ensures ItemOk(x', x'.peer.reliable[i], x'.numbers[i])
    {
      if i < |x.numbers| {
        assert ItemOk(x, x.peer.reliable[i], x.numbers[i]);
      }
    }
  }

  lemma SubmitLeavesReceiver(x: Endpoint, message: Payload, isReliable: bool)
    ensures SameReceiver(x, Submit(x, message, isReliable)) && Submit(x, message, isReliable).records == x.records
  {
  }

  lemma FlushLeavesReceiver(x: Endpoint)
    ensures SameReceiver(x, FlushAll(x)) && FlushAll(x).records == x.records
  {
    assert FullInbox(FlushAll(x)) == FullInbox(x);
  }

  // ---------------------------------------------------------------------------------------------
  // Emitting a packet

  /** The picked numbers are those of the picked messages, in step. */
  lemma {:induction false} DueNumbersMatch(x: Endpoint, q: seq<ReliableMessage>, numbers: seq<nat>, c: Clock)
    requires |q| == |numbers|
    requires forall i | 0 <= i < |q| :: numbers[i] < |x.accepted| && q[i].sequenceNum == Wire(numbers[i]) && q[i].message == x.accepted[numbers[i]]
    ensures var due := DueNumbers(q, numbers, c);
            var entries := DueEntries(q, c);
            && |due| == |entries|
            && (forall j | 0 <= j < |due| ::
                  && due[j] < |x.accepted| && due[j] in numbers
                  && entries[j] == Entry(Wire(due[j]), RELIABLE_CHANNEL_ID, x.accepted[due[j]]))
            && (forall i | 0 <= i < |q| && Due(q[i], c) :: numbers[i] in due)
  {
    if q != [] {
      DueNumbersMatch(x, q[1..], numbers[1..], c);
      var due := DueNumbers(q[1..], numbers[1..], c);
      assert forall k | k in numbers[1..] :: k in numbers;
      assert forall i | 1 <= i < |q| && Due(q[i], c) :: numbers[1..][i - 1] in due;
    }
  }

  /** The reliable messages of the next packet and their numbers. */
  lemma WrittenNumbersMatch(x: Endpoint, c: Clock)
    requires QueueOk(x)
    ensures var stop := WalkReliable(x.peer.reliable, 0, PACKET_HEADER_SIZE_BYTES, c).stop;
            var due := WrittenNumbers(x, c);
            var entries := DueEntries(x.peer.reliable[..stop], c);
            && |due| == |entries|
            && (forall j | 0 <= j < |due| ::
                  && due[j] < |x.accepted| && due[j] in x.numbers
                  && entries[j] == Entry(Wire(due[j]), RELIABLE_CHANNEL_ID, x.accepted[due[j]]))
            && (forall i | 0 <= i < stop && Due(x.peer.reliable[i], c) :: x.numbers[i] in due)
  {
    var q := x.peer.reliable;
    var stop := WalkReliable(q, 0, PACKET_HEADER_SIZE_BYTES, c).stop;
    forall i | 0 <= i < stop
      ensures x.numbers[i] < |x.accepted| && q[i].sequenceNum == Wire(x.numbers[i]) && q[i].message == x.accepted[x.numbers[i]]
    {
      assert ItemOk(x, q[i], x.numbers[i]);
    }
    DueNumbersMatch(x, q[..stop], x.numbers[..stop], c);
    assert forall k | k in x.numbers[..stop] :: k in x.numbers;
    assert forall i | 0 <= i < stop :: q[..stop][i] == q[i] && x.numbers[..stop][i] == x.numbers[i];
  }

  /** A packet's messages: the picked reliable ones, then some unreliable ones of the queue. */
  lemma WrittenEntries(st: PeerState, packet: SequenceNumber, c: Clock)
    ensures var stop := WalkReliable(st.reliable, 0, PACKET_HEADER_SIZE_BYTES, c).stop;
            var due := DueEntries(st.reliable[..stop], c);
            var w := WritePacket(st, PACKET_HEADER_SIZE_BYTES, packet, c);
            && due <= w.entries
            && (forall j | |due| <= j < |w.entries| ::
                  w.entries[j].channelId == UNRELIABLE_CHANNEL_ID && w.entries[j].payload in st.unreliable)
            && w.st.reliable == StampUpTo(st.reliable, stop, packet, c)
            && (forall m | m in w.st.unreliable :: m in st.unreliable)
  {
  }

  /** The new packet is what its record says. */
  lemma EmitMakesPacket(x: Endpoint, c: Clock)
    requires SenderOk(x) && HasDataToSend(x.peer)
    ensures PacketOk(Emit(x, c), |x.records|)
  {
    var x' := Emit(x, c);
    var r := x'.records[|x.records|];
    WrittenNumbersMatch(x, c);
    WrittenEntries(x.peer, x.acks.st.generator, c);
    assert r.numbers == WrittenNumbers(x, c);
    assert forall k | k in r.numbers :: k in x'.written;
    forall j | 0 <= j < |r.entries|
      ensures Encodable(r.entries[j])
    {
      if j < |r.numbers| {
        assert r.entries[j].payload == x.accepted[r.numbers[j]];
      }
    }
  }

  /** `x'` is `x` after a packet with reliable numbers `due` was written, stamping the queue up to `stop`. */
  ghost predicate PassedTo(x: Endpoint, x': Endpoint, stop: nat, c: Clock) {
    && stop <= |x.peer.reliable| == |x.numbers|
    && |x'.records| == |x.records| + 1 && x.records <= x'.records
    && x'.records[|x.records|].numbers == DueNumbers(x.peer.reliable[..stop], x.numbers[..stop], c)
    && x'.peer.reliable == StampUpTo(x.peer.reliable, stop, Wire(|x.records|), c)
    && x'.numbers == x.numbers && x'.accepted == x.accepted
    && x'.written == x.written + SetOf(x'.records[|x.records|].numbers)
  }

  lemma EmitPasses(x: Endpoint, c: Clock)
    requires SenderOk(x) && HasDataToSend(x.peer)
    ensures PassedTo(x, Emit(x, c), WalkReliable(x.peer.reliable, 0, PACKET_HEADER_SIZE_BYTES, c).stop, c)
  {
  }

  /** A queued message after the packet was written. */
  lemma PassKeepsItem(x: Endpoint, x': Endpoint, stop: nat, c: Clock, i: nat)
    requires PassedTo(x, x', stop, c) && i < |x.numbers|
    requires ItemOk(x, x.peer.reliable[i], x.numbers[i])
    requires forall a, b | 0 <= a < b < |x.numbers| :: x.numbers[a] < x.numbers[b]
    requires i < stop && Due(x.peer.reliable[i], c) ==> x.numbers[i] in x'.records[|x.records|].numbers
    ensures ItemOk(x', x'.peer.reliable[i], x.numbers[i])
  {
    var n := |x.records|;
    var q := x.peer.reliable;
    var k := x.numbers[i];
    if i < stop && Due(q[i], c) {
      assert x'.peer.reliable[i].packetSequenceNum == Wire(n) && LastCarrier(x', k, n);
    } else {
      assert x'.peer.reliable[i] == q[i];
      if k in x.written {
        var m :| 0 <= m < |x.records| && q[i].packetSequenceNum == Wire(m) && LastCarrier(x, k, m);
        if k in x'.records[n].numbers {
          DueIsOwnNumber(q, x.numbers, stop, c, i);
        }
        assert LastCarrier(x', k, m);
      } else if k in x'.written {
        DueIsOwnNumber(q, x.numbers, stop, c, i);
      }
    }
  }

  /** With distinct numbers, only a due message puts its number among the picked ones. */
  lemma DueIsOwnNumber(q: seq<ReliableMessage>, numbers: seq<nat>, stop: nat, c: Clock, i: nat)
    requires stop <= |q| == |numbers| && i < |q|
    requires forall a, b | 0 <= a < b < |numbers| :: numbers[a] < numbers[b]
    requires numbers[i] in DueNumbers(q[..stop], numbers[..stop], c)
    ensures i < stop && Due(q[i], c)
  {
    DueNumberHasPosition(q[..stop], numbers[..stop], c, numbers[i]);
  }

  lemma {:induction false} DueNumberHasPosition(q: seq<ReliableMessage>, numbers: seq<nat>, c: Clock, k: nat)
    requires |q| == |numbers| && k in DueNumbers(q, numbers, c)
    ensures exists j | 0 <= j < |q| :: numbers[j] == k && Due(q[j], c)
  {
    if !(Due(q[0], c) && numbers[0] == k) {
      DueNumberHasPosition(q[1..], numbers[1..], c, k);
      var j :| 0 <= j < |q[1..]| && numbers[1..][j] == k && Due(q[1..][j], c);
      assert numbers[j + 1] == k && Due(q[j + 1], c);
    }
  }

  lemma EmitKeepsQueue(x: Endpoint, c: Clock)
    requires SenderOk(x) && HasDataToSend(x.peer)
    ensures QueueOk(Emit(x, c))
  {
    var x' := Emit(x, c);
    WrittenNumbersMatch(x, c);
    WrittenEntries(x.peer, x.acks.st.generator, c);
    EmitPasses(x, c);
    assert x'.numbers == x.numbers && |x'.peer.reliable| == |x.peer.reliable|;
    forall i | 0 <= i < |x'.numbers|
      ensures ItemOk(x', x'.peer.reliable[i], x'.numbers[i])
    {
      assert ItemOk(x, x.peer.reliable[i], x.numbers[i]);
      PassKeepsItem(x, x', WalkReliable(x.peer.reliable, 0, PACKET_HEADER_SIZE_BYTES, c).stop, c, i);
    }
  }

  lemma EmitKeepsSender(x: Endpoint, c: Clock)
    requires SenderOk(x)
    ensures SenderOk(Emit(x, c))
  {
    if HasDataToSend(x.peer) {
      var x' := Emit(x, c);
      OldPacketsOk(x, x');
      EmitMakesPacket(x, c);
      EmitKeepsQueue(x, c);
      StepKeepsMeaning(x.acks, Sent);
    }
  }

  lemma EmitKeepsLink(x: Endpoint, y: Endpoint, c: Clock)
    requires SenderOk(x) && Link(x, y)
    ensures Link(Emit(x, c), y)
  {
  }

  lemma EmitAcksOk(x: Endpoint, y: Endpoint, c: Clock)
    requires Meaning(y.acks) && Link(x, y) && HasDataToSend(y.peer)
    ensures var y' := Emit(y, c);
            |y'.records| == |y.records| + 1 && RecordAcksOk(y'.records[|y.records|], y.acks.arrived, |x.records|)
  {
    var r := Emit(y, c).records[|y.records|];
    forall i: nat | 1 <= i <= 32
      ensures Bit(r.bits, 32 - i) <==> SomeInSlot(r.seen, Slot(Back(r.ack, i)))
    {
      AckFieldMeaning(y.acks, i);
    }
  }

  /** The ack fields of the new packet mean what they should. */
  lemma EmitKeepsReceiver(x: Endpoint, y: Endpoint, c: Clock)
    requires SenderOk(y) && Link(x, y)
    ensures Link(x, Emit(y, c))
  {
    if HasDataToSend(y.peer) {
      var y' := Emit(y, c);
      EmitAcksOk(x, y, c);
      assert SameReceiver(y, y');
      forall m | 0 <= m < |y'.records|
        ensures RecordAcksOk(y'.records[m], y'.acks.arrived, |x.records|)
      {
        if m < |y.records| {
          assert y'.records[m] == y.records[m];
        }
      }
    }
  }

  // ---------------------------------------------------------------------------------------------
  // Delivering a packet: what it does to the receiver of its messages

  function HeaderOf(y: Endpoint, n: nat): PacketHeader
    requires n < |y.records|
  {
    PacketHeader(USER_PACKET, Wire(n), y.records[n].ack, y.records[n].bits)
  }

  /** The bytes are read back as what was written. */
  lemma DeliverReads(x: Endpoint, y: Endpoint, n: nat)
    requires SenderOk(y) && n < |y.records|
    ensures TakeDelivery(x, y, n)
         == ReadPacket(x, n, HeaderOf(y, n), y.records[n].entries)
              .(handed := x.handed + SetOf(y.records[n].numbers),
                ordered := x.ordered && AllSafe(FullInbox(x), y.records[n].numbers, y.accepted),
                taken := x.taken + [y.datagrams[n]])
  {
    assert PacketOk(y, n);
    PacketRoundTrip(HeaderOf(y, n), y.records[n].entries);
  }

  function BoxAfter(earlier: seq<Payload>, st: PeerState): Inbox {
    Inbox(st.last, st.store, earlier + st.reliableToDeliver)
  }

  lemma {:induction false} UnreliableLeaveInbox(earlier: seq<Payload>, st: PeerState, entries: seq<Entry>)
    requires forall j | 0 <= j < |entries| :: entries[j].channelId == UNRELIABLE_CHANNEL_ID
    ensures BoxAfter(earlier, ReceiveEntries(st, entries)) == BoxAfter(earlier, st)
    decreases |entries|
  {
    if entries != [] {
      UnreliableLeaveInbox(earlier, ReceiveEntry(st, entries[0]), entries[1..]);
    }
  }

  lemma SafeEntryKeepsOrder(earlier: seq<Payload>, st: PeerState, n: nat, log: seq<Payload>, got: set<nat>)
    requires InOrder(BoxAfter(earlier, st), log, got) && n < |log|
    requires var box := BoxAfter(earlier, st); Safe(|box.queue| - 1, n) || Shadowed(box, |box.queue| - 1, n)
    ensures var st' := ReceiveEntry(st, Entry(Wire(n), RELIABLE_CHANNEL_ID, log[n]));
            && BoxAfter(earlier, st') == Receive(BoxAfter(earlier, st), Wire(n), log[n])
            && InOrder(BoxAfter(earlier, st'), log, got + {n})
  {
    ReceiveAppends(InboxOf(st), earlier, Wire(n), log[n]);
    ArrivalKeepsOrderIff(BoxAfter(earlier, st), log, got, n);
  }

  /** The entries are the messages `numbers` of the log, followed by unreliable ones. */
  ghost predicate Carries(entries: seq<Entry>, numbers: seq<nat>, log: seq<Payload>)
    decreases |entries|
  {
    if numbers == [] then forall j | 0 <= j < |entries| :: entries[j].channelId == UNRELIABLE_CHANNEL_ID
    else
      && entries != [] && numbers[0] < |log|
      && entries[0] == Entry(Wire(numbers[0]), RELIABLE_CHANNEL_ID, log[numbers[0]])
      && Carries(entries[1..], numbers[1..], log)
  }

  lemma {:induction false} PacketCarries(entries: seq<Entry>, numbers: seq<nat>, log: seq<Payload>)
    requires |numbers| <= |entries|
    requires forall j | 0 <= j < |entries| ::
               if j < |numbers| then numbers[j] < |log| && entries[j] == Entry(Wire(numbers[j]), RELIABLE_CHANNEL_ID, log[numbers[j]])
               else entries[j].channelId == UNRELIABLE_CHANNEL_ID
    ensures Carries(entries, numbers, log)
    decreases |entries|
  {
    if numbers != [] {
      PacketCarries(entries[1..], numbers[1..], log);
    }
  }

  lemma SetOfHead(got: set<nat>, numbers: seq<nat>)
    requires numbers != []
    ensures got + {numbers[0]} + SetOf(numbers[1..]) == got + SetOf(numbers)
  {
  }

  /** The messages of a packet whose reliable numbers all arrive safely. */
  lemma {:induction false} SafePacketKeepsOrder(
      earlier: seq<Payload>, st: PeerState, entries: seq<Entry>, numbers: seq<nat>, log: seq<Payload>, got: set<nat>)
    requires InOrder(BoxAfter(earlier, st), log, got) && AllSafe(BoxAfter(earlier, st), numbers, log)
    requires Carries(entries, numbers, log)
    ensures InOrder(BoxAfter(earlier, ReceiveEntries(st, entries)), log, got + SetOf(numbers))
    decreases |entries|
  {
    if numbers == [] {
      UnreliableLeaveInbox(earlier, st, entries);
      assert got + SetOf(numbers) == got;
    } else {
      SafeEntryKeepsOrder(earlier, st, numbers[0], log, got);
      SetOfHead(got, numbers);
      SafePacketKeepsOrder(earlier, ReceiveEntry(st, entries[0]), entries[1..], numbers[1..], log, got + {numbers[0]});
    }
  }

  lemma {:induction false} ReceiveLeavesSender(st: PeerState, entries: seq<Entry>)
    ensures var st' := ReceiveEntries(st, entries);
            && st'.reliable == st.reliable && st'.unreliable == st.unreliable
            && st'.generator == st.generator && st'.hasReliable == st.hasReliable
    decreases |entries|
  {
    if entries != [] {
      ReceiveLeavesSender(ReceiveEntry(st, entries[0]), entries[1..]);
    }
  }

  lemma DeliverKeepsInbox(x: Endpoint, y: Endpoint, n: nat)
    requires SenderOk(y) && n < |y.records|
    requires x.ordered ==> InOrder(FullInbox(x), y.accepted, x.handed)
    ensures var x' := TakeDelivery(x, y, n); x'.ordered ==> InOrder(FullInbox(x'), y.accepted, x'.handed)
  {
    var r := y.records[n];
    var x' := TakeDelivery(x, y, n);
    DeliverReads(x, y, n);
    assert PacketOk(y, n);
    if x'.ordered {
      PacketCarries(r.entries, r.numbers, y.accepted);
      SafePacketKeepsOrder(x.popped, x.peer, r.entries, r.numbers, y.accepted, x.handed);
      assert FullInbox(x') == BoxAfter(x.popped, ReceiveEntries(x.peer, r.entries));
    }
  }

  /** The counter of the highest packet stays the wire value of the true maximum. */
  lemma DeliverKeepsHighest(x: Endpoint, y: Endpoint, n: nat)
    requires SenderOk(y) && Link(y, x) && n < |y.records|
    ensures var x' := TakeDelivery(x, y, n);
            && x'.acks.arrived == x.acks.arrived + {n}
            && IsHighest(x'.highest, x'.acks.arrived)
            && (|y.records| <= 32767 ==> x'.acks.st.received == Wire(x'.highest))
  {
    DeliverReads(x, y, n);
    if |y.records| <= 32767 {
      assert -1 <= x.highest < |y.records|;
      SerialOrderIsOrder(n, x.highest);
    }
  }

  lemma DeliverKeepsReceiver(x: Endpoint, y: Endpoint, n: nat)
    requires SenderOk(y) && Link(y, x) && n < |y.records|
    ensures Link(y, TakeDelivery(x, y, n))
  {
    var x' := TakeDelivery(x, y, n);
    DeliverReads(x, y, n);
    DeliverKeepsInbox(x, y, n);
    DeliverKeepsHighest(x, y, n);
    assert x'.records == x.records;
    assert PacketOk(y, n);
    assert SetOf(y.records[n].numbers) <= y.written;
    forall m | 0 <= m < |x'.records|
      ensures RecordAcksOk(x'.records[m], x'.acks.arrived, |y.records|)
    {
      assert RecordAcksOk(x.records[m], x.acks.arrived, |y.records|);
    }
  }

  // ---------------------------------------------------------------------------------------------
  // Delivering a packet: what its acks do to the sender that reads them

  function ReportOf(x: Endpoint, y: Endpoint, n: nat): set<SequenceNumber>
    requires n < |y.records|
  {
    ReceiveHeader(x.acks.st, Wire(n), y.records[n].ack, y.records[n].bits).1
  }

  /** With few packets sent, the packet behind a set ack bit is the one the bit stands for. */
  lemma AckBitIsTrue(r: PacketRecord, arrived: set<nat>, far: nat, i: nat)
    requires RecordAcksOk(r, arrived, far) && far <= 1025 && 1 <= i <= 32
    requires forall n | n in arrived :: n < far
    requires Bit(r.bits, 32 - i)
    ensures r.highest - i >= 0 && r.highest - i in arrived && Back(r.ack, i) == r.highest - i
  {
    assert SomeInSlot(r.seen, Slot(Back(r.ack, i)));
    var m :| m in r.seen && m % 1024 == Slot(Back(r.ack, i));
    assert m <= r.highest < far;
    WireOfWire(r.highest, 0 - i as int);
    WireKeepsSlot(r.highest - i);
    SameSlotIsSame(r.highest - i, m);
  }

  lemma SameSlotIsSame(a: int, m: int)
    requires a % 1024 == m % 1024 && -1024 < a - m < 1024
    ensures a == m
  {
  }

  /** A reported number stands in its slot, so it is small when few packets were sent. */
  lemma ReportIsSmall(h: History, selected: set<SequenceNumber>, s: SequenceNumber)
    requires SentRingMeaning(h) && h.sent <= 1025
    requires s in Reported(h.st.sentRing, selected)
    ensures s < 1025
  {
  }

  lemma SelectedIsTrue(r: PacketRecord, arrived: set<nat>, far: nat, s: SequenceNumber)
    requires RecordAcksOk(r, arrived, far) && far <= 1025
    requires forall n | n in arrived :: n < far
    requires s in Selected(r.ack, r.bits) && s < 1025
    ensures s in arrived
  {
    if s != r.ack {
      var i: nat :| 1 <= i <= 32 && Bit(r.bits, 32 - i) && s == Back(r.ack, i);
      AckBitIsTrue(r, arrived, far, i);
    }
  }

  /** Every reported sequence number is a packet that the other side received. */
  lemma ReportIsTrue(x: Endpoint, y: Endpoint, n: nat, s: SequenceNumber)
    requires SenderOk(x) && Link(x, y) && n < |y.records|
    requires |x.records| <= 1025 && s in ReportOf(x, y, n)
    ensures s in y.acks.arrived
  {
    var r := y.records[n];
    ReportIsSmall(x.acks.(st := ReceivePacket(x.acks.st, Wire(n))), Selected(r.ack, r.bits), s);
    SelectedIsTrue(r, y.acks.arrived, |x.records|, s);
  }

  /** `x'` is `x` after a report that leaves the queue positions `kept`. */
  ghost predicate ReducedTo(x: Endpoint, x': Endpoint, kept: seq<nat>) {
    && |x.numbers| == |x.peer.reliable|
    && (forall a | 0 <= a < |kept| :: kept[a] < |x.numbers|)
    && (forall a, b | 0 <= a < b < |kept| :: kept[a] < kept[b])
    && x'.numbers == Select(x.numbers, kept) && x'.peer.reliable == Select(x.peer.reliable, kept)
    && x'.peer.unreliable == x.peer.unreliable && x'.peer.generator == x.peer.generator
    && x'.records == x.records && x'.accepted == x.accepted && x'.written == x.written
    && x'.lost == x.lost + ((set k | k in x.numbers && k !in x'.numbers) - x.written)
  }

  lemma DeliverReduces(x: Endpoint, y: Endpoint, n: nat)
    requires SenderOk(x) && SenderOk(y) && n < |y.records|
    ensures ReducedTo(x, TakeDelivery(x, y, n), Kept(x.peer.reliable, ReportOf(x, y, n), 0))
  {
    DeliverReads(x, y, n);
    ReceiveLeavesSender(x.peer, y.records[n].entries);
  }

  lemma ReducedKeepsQueue(x: Endpoint, x': Endpoint, kept: seq<nat>)
    requires QueueOk(x) && ReducedTo(x, x', kept)
    ensures QueueOk(x')
  {
  }

  lemma DeliverKeepsSender(x: Endpoint, y: Endpoint, n: nat)
    requires SenderOk(x) && SenderOk(y) && n < |y.records|
    ensures SenderOk(TakeDelivery(x, y, n))
  {
    var r := y.records[n];
    var x' := TakeDelivery(x, y, n);
    DeliverReads(x, y, n);
    DeliverReduces(x, y, n);
    ReducedKeepsQueue(x, x', Kept(x.peer.reliable, ReportOf(x, y, n), 0));
    StepKeepsMeaning(x.acks, Arrived(n, r.ack, r.bits));
    assert x'.acks == Step(x.acks, Arrived(n, r.ack, r.bits));
    OldPacketsOk(x, x');
  }

  /** The last packet that carries a written message. */
  lemma CarrierOf(x: Endpoint, i: nat) returns (m: nat)
    requires QueueOk(x) && i < |x.numbers| && x.numbers[i] in x.written
    ensures m < |x.records| && x.peer.reliable[i].packetSequenceNum == Wire(m) && LastCarrier(x, x.numbers[i], m)
  {
    assert ItemOk(x, x.peer.reliable[i], x.numbers[i]);
    m :| 0 <= m < |x.records| && x.peer.reliable[i].packetSequenceNum == Wire(m) && LastCarrier(x, x.numbers[i], m);
  }

  /** What a truthful report removes was never written, or has arrived. */
  lemma RemovedHasArrived(x: Endpoint, y: Endpoint, report: set<SequenceNumber>, i: nat)
    requires QueueOk(x) && Link(x, y)
    requires |x.records| <= 1025 && i < |x.numbers|
    requires forall s | s in report :: s in y.acks.arrived
    requires x.peer.reliable[i].packetSequenceNum in report
    ensures x.numbers[i] !in x.written || x.numbers[i] in y.handed
  {
  }

  lemma KeptStays(numbers: seq<nat>, kept: seq<nat>, i: nat)
    requires i < |numbers| && forall a | 0 <= a < |kept| :: kept[a] < |numbers|
    ensures i in kept ==> numbers[i] in Select(numbers, kept)
  {
    if i in kept {
      var j :| 0 <= j < |kept| && kept[j] == i;
      assert Select(numbers, kept)[j] == numbers[i];
    }
  }

  lemma DeliverKeepsLink(x: Endpoint, y: Endpoint, n: nat)
    requires SenderOk(x) && SenderOk(y) && Link(x, y) && n < |y.records|
    ensures Link(TakeDelivery(x, y, n), y)
  {
    var x' := TakeDelivery(x, y, n);
    DeliverReads(x, y, n);
    var kept := Kept(x.peer.reliable, ReportOf(x, y, n), 0);
    assert x'.records == x.records && x'.accepted == x.accepted && x'.written == x.written;
    assert x'.numbers == Select(x.numbers, kept);
    if |x.records| <= 1025 {
      forall s | s in ReportOf(x, y, n)
        ensures s in y.acks.arrived
      {
        ReportIsTrue(x, y, n, s);
      }
      forall k | 0 <= k < |x.accepted| && k !in x'.numbers && k !in x'.lost
        ensures k in y.handed
      {
        if k in x.numbers {
          var i :| 0 <= i < |x.numbers| && x.numbers[i] == k;
          KeptStays(x.numbers, kept, i);
          RemovedHasArrived(x, y, ReportOf(x, y, n), i);
        }
      }
    }
  }

  // ---------------------------------------------------------------------------------------------
  // Every reachable state

  lemma ActKeepsInv(x: Endpoint, y: Endpoint, a: Action)
    requires SenderOk(x) && SenderOk(y) && Link(x, y) && Link(y, x)
    ensures var x' := Act(x, y, a); SenderOk(x') && Link(x', y) && Link(y, x')
  {
    match a
    case Submitted(message, isReliable) =>
      SubmitKeepsSender(x, y, message, isReliable);
      SubmitLeavesReceiver(x, message, isReliable);
      ReceiverFrame(y, x, Submit(x, message, isReliable));
    case Emitted(c) =>
      EmitKeepsSender(x, c);
      EmitKeepsLink(x, y, c);
      EmitKeepsReceiver(y, x, c);
    case Delivery(n) =>
      if n < |y.records| {
        DeliverKeepsSender(x, y, n);
        DeliverKeepsLink(x, y, n);
        DeliverKeepsReceiver(x, y, n);
      }
    case Flushed =>
      FlushLeavesReceiver(x);
      ReceiverFrame(y, x, FlushAll(x));
      FlushKeepsSender(x, y);
  }

  lemma FlushKeepsSender(x: Endpoint, y: Endpoint)
    requires SenderOk(x) && Link(x, y)
    ensures SenderOk(FlushAll(x)) && Link(FlushAll(x), y)
  {
    var x' := FlushAll(x);
    OldPacketsOk(x, x');
    forall i | 0 <= i < |x'.numbers|
      ensures ItemOk(x', x'.peer.reliable[i], x'.numbers[i])
    {
      assert ItemOk(x, x.peer.reliable[i], x.numbers[i]);
    }
  }

  lemma {:induction false} PlayKeepsInv(moves: seq<Move>)
    ensures Inv(Play(moves))
  {
    if moves == [] {
      NewHistoryHasMeaning();
      EmptyInboxInOrder([]);
      assert FullInbox(NewEndpoint()) == EMPTY_INBOX;
    } else {
      var m := moves[|moves| - 1];
      var w := Play(moves[..|moves| - 1]);
      PlayKeepsInv(moves[..|moves| - 1]);
      if m.byA {
        ActKeepsInv(w.a, w.b, m.action);
      } else {
        ActKeepsInv(w.b, w.a, m.action);
      }
    }
  }
}
