/** Packet acknowledgement (src/packetManager/PacketManager.cpp:55-199): the two 1024-slot rings, the
    32-bit ack field and what they mean over whole runs. */
module PacketAcks {
  import opened SequenceNumbers

  const SEQUENCE_PACKET_BUFFER_SIZE := 1024
  const NUMBER_OF_ACK_BITS := 32

  type AckBits = x: int | 0 <= x < 0x1_0000_0000

  datatype SlotState = Empty | Acked | Received

  datatype PacketData = PacketData(sequence: SequenceNumber, state: SlotState)

  const EMPTY_SLOT := PacketData(0, Empty)

  type Ring = s: seq<PacketData> | |s| == 1024 witness seq(1024, i => PacketData(0, Empty))

  function EmptyRing(): Ring {
    seq(1024, i => EMPTY_SLOT)
  }

  /** One PacketPeer; `received` is m_receivedSequenceNumber. */
  datatype PacketState = PacketState(
    generator: SequenceNumber, received: SequenceNumber, sentRing: Ring, receivedRing: Ring)

  function NewPacketState(): PacketState {
    PacketState(0, MAX_SEQUENCE_NUMBER, EmptyRing(), EmptyRing())
  }

  function Slot(s: SequenceNumber): nat
    ensures Slot(s) < 1024
  {
    s % SEQUENCE_PACKET_BUFFER_SIZE
  }

  // ---------------------------------------------------------------------------------------------
  // The ack field

  /** The wire number `i` before `s`. */
  function Back(s: SequenceNumber, i: int): SequenceNumber {
    Wire(s - i)
  }

  predicate Bit(bits: nat, k: nat) {
    if k == 0 then bits % 2 == 1 else Bit(bits / 2, k - 1)
  }

  function Pow2(n: nat): nat {
    if n == 0 then 1 else 2 * Pow2(n - 1)
  }

  /** Has the packet with number `highest - i` an occupied slot? */
  predicate SlotReceived(ring: Ring, highest: SequenceNumber, i: int) {
    ring[Slot(Back(highest, i))].state.Received?
  }

  /** The field after `i` rounds of the generating loop, which starts at highest - 1 and shifts left. */
  function AckFieldUpTo(ring: Ring, highest: SequenceNumber, i: nat): (bits: nat)
    ensures bits < Pow2(i)
  {
    if i == 0 then 0
    else 2 * AckFieldUpTo(ring, highest, i - 1) + (if SlotReceived(ring, highest, i) then 1 else 0)
  }

  function AckField(ring: Ring, highest: SequenceNumber): AckBits {
    Pow2Of32();
    AckFieldUpTo(ring, highest, NUMBER_OF_ACK_BITS)
  }

  lemma Pow2Of32()
    ensures Pow2(32) == 0x1_0000_0000
  {
    assert Pow2(8) == 256;
    assert Pow2(16) == 256 * Pow2(8);
    assert Pow2(24) == 256 * Pow2(16);
    assert Pow2(32) == 256 * Pow2(24);
  }

  lemma {:induction false} AckFieldUpToBit(ring: Ring, highest: SequenceNumber, i: nat, k: nat)
    requires 1 <= k <= i
    ensures Bit(AckFieldUpTo(ring, highest, i), i - k) <==> SlotReceived(ring, highest, k)
  {
    var bits := AckFieldUpTo(ring, highest, i);
    assert bits / 2 == AckFieldUpTo(ring, highest, i - 1);
    if k < i {
      AckFieldUpToBit(ring, highest, i - 1, k);
    }
  }

  lemma AckFieldBit(ring: Ring, highest: SequenceNumber, i: nat)
    requires 1 <= i <= 32
    ensures Bit(AckField(ring, highest), 32 - i) <==> SlotReceived(ring, highest, i)
  {
    AckFieldUpToBit(ring, highest, 32, i);
  }

  /** The sequence numbers that the decoding loop, which starts at ack - 32 and shifts right, hands to
      processAckBit. */
  function Selected(ack: SequenceNumber, bits: AckBits): set<SequenceNumber> {
    (set i: nat | 1 <= i <= 32 && Bit(bits, 32 - i) :: Back(ack, i)) + {ack}
  }

  /** Encoding and decoding agree, whatever the ring and the counter hold. */
  lemma AckBitsRoundTrip(ring: Ring, highest: SequenceNumber)
    ensures Selected(highest, AckField(ring, highest))
         == (set i: nat | 1 <= i <= 32 && SlotReceived(ring, highest, i) :: Back(highest, i)) + {highest}
  {
    forall i: nat | 1 <= i <= 32
      ensures Bit(AckField(ring, highest), 32 - i) <==> SlotReceived(ring, highest, i)
    {
      AckFieldBit(ring, highest, i);
    }
  }

  // ---------------------------------------------------------------------------------------------
  // The operations

  /** Numbers a packet, occupies its slot and reads the ack fields for its header. */
  function SendPacket(st: PacketState): (PacketState, SequenceNumber, SequenceNumber, AckBits) {
    var s := st.generator;
    var st' := st.(generator := Wire(s + 1), sentRing := st.sentRing[Slot(s) := PacketData(s, Empty)]);
    (st', s, st'.received, AckField(st'.receivedRing, st'.received))
  }

  function ReceivePacket(st: PacketState, s: SequenceNumber): PacketState {
    st.(received := if SequenceGreaterThan(s, st.received) then s else st.received,
        receivedRing := st.receivedRing[Slot(s) := PacketData(s, Received)])
  }

  /** Those of the selected numbers that are reported as newly acknowledged. */
  function Reported(ring: Ring, selected: set<SequenceNumber>): set<SequenceNumber> {
    set s | s in selected && ring[Slot(s)].sequence == s && !ring[Slot(s)].state.Acked?
  }

  function MarkAcked(ring: Ring, reported: set<SequenceNumber>): Ring {
    seq(1024, j requires 0 <= j < 1024 =>
      if ring[j].sequence in reported && Slot(ring[j].sequence) == j then ring[j].(state := Acked)
      else ring[j])
  }

  function ProcessAcks(st: PacketState, ack: SequenceNumber, bits: AckBits): (PacketState, set<SequenceNumber>) {
    var reported := Reported(st.sentRing, Selected(ack, bits));
    (st.(sentRing := MarkAcked(st.sentRing, reported)), reported)
  }

  /** A packet header arrives: the packet is recorded before its acks are read. */
  function ReceiveHeader(st: PacketState, s: SequenceNumber, ack: SequenceNumber, bits: AckBits)
    : (PacketState, set<SequenceNumber>)
  {
    ProcessAcks(ReceivePacket(st, s), ack, bits)
  }

  // ---------------------------------------------------------------------------------------------
  // Runs: one peer, any packets sent and any headers received

  datatype Event = Sent | Arrived(number: nat, ack: SequenceNumber, bits: AckBits)

  /** A peer with its history: how many packets it sent, which packet numbers arrived, and the numbers
      of the packets it reported as acknowledged. */
  datatype History = History(st: PacketState, sent: nat, arrived: set<nat>, reported: set<int>)

  function NewHistory(): History {
    History(NewPacketState(), 0, {}, {})
  }

  /** The number of the last of `sent` packets that used slot `j`; negative if there was none. */
  function Owner(sent: nat, j: nat): int {
    sent - 1 - (sent - 1 - j) % 1024
  }

  function Owners(sent: nat, reported: set<SequenceNumber>): set<int> {
    set s | s in reported :: Owner(sent, Slot(s))
  }

  function Step(h: History, e: Event): History {
    match e
    case Sent => h.(st := SendPacket(h.st).0, sent := h.sent + 1)
    case Arrived(n, ack, bits) =>
      var r := ReceiveHeader(h.st, Wire(n), ack, bits);
      h.(st := r.0, arrived := h.arrived + {n}, reported := h.reported + Owners(h.sent, r.1))
  }

  ghost function Run(events: seq<Event>): History {
    if events == [] then NewHistory()
    else Step(Run(events[..|events| - 1]), events[|events| - 1])
  }

  ghost predicate SentRingMeaning(h: History) {
    forall j | 0 <= j < 1024 ::
      var o := Owner(h.sent, j);
      && h.st.sentRing[j].sequence == (if o < 0 then 0 else Wire(o))
      && (h.st.sentRing[j].state.Acked? <==> o in h.reported)
  }

  /** Some packet with number `j` modulo 1024 is among them. */
  ghost predicate SomeInSlot(numbers: set<nat>, j: nat) {
    exists n | n in numbers :: n % 1024 == j
  }

  ghost predicate ReceivedRingMeaning(h: History) {
    forall j | 0 <= j < 1024 ::
      h.st.receivedRing[j].state.Received? <==> SomeInSlot(h.arrived, j)
  }

  ghost predicate Meaning(h: History) {
    && h.st.generator == Wire(h.sent)
    && SentRingMeaning(h)
    && ReceivedRingMeaning(h)
    && (forall o | o in h.reported :: o < h.sent)
  }

  lemma OwnerFacts(sent: nat, j: nat)
    requires j < 1024
    ensures sent - 1024 <= Owner(sent, j) < sent
    ensures Owner(sent, j) % 1024 == j
    ensures Owner(sent + 1, j) == if sent % 1024 == j then sent else Owner(sent, j)
  {
  }

  lemma WireKeepsSlot(n: int)
    ensures Slot(Wire(n)) == n % 1024
  {
  }

  lemma SendKeepsMeaning(h: History)
    requires Meaning(h)
    ensures Meaning(Step(h, Sent))
  {
    var h' := Step(h, Sent);
    WireKeepsSlot(h.sent);
    assert h'.st.generator == Wire(h'.sent) by { WireOfWire(h.sent, 1); }
    forall j | 0 <= j < 1024
      ensures var o := Owner(h'.sent, j);
              && h'.st.sentRing[j].sequence == (if o < 0 then 0 else Wire(o))
              && (h'.st.sentRing[j].state.Acked? <==> o in h'.reported)
    {
      OwnerFacts(h.sent, j);
      if j != h.sent % 1024 {
        assert h'.st.sentRing[j] == h.st.sentRing[j];
      }
    }
  }

  /** A reported number names the packet that owns its slot, and that packet was not reported before. */
  lemma ReportIsFresh(h: History, selected: set<SequenceNumber>)
    requires SentRingMeaning(h)
    ensures forall s | s in Reported(h.st.sentRing, selected) ::
              var o := Owner(h.sent, Slot(s));
              && o !in h.reported && h.sent - 1024 <= o < h.sent
              && (o >= 0 ==> Wire(o) == s)
  {
  }

  lemma AcksKeepRingMeaning(h: History, ack: SequenceNumber, bits: AckBits)
    requires SentRingMeaning(h)
    ensures var r := ProcessAcks(h.st, ack, bits);
            SentRingMeaning(h.(st := r.0, reported := h.reported + Owners(h.sent, r.1)))
  {
    var r := ProcessAcks(h.st, ack, bits);
    var owners := Owners(h.sent, r.1);
    forall j | 0 <= j < 1024
      ensures var o := Owner(h.sent, j);
              && r.0.sentRing[j].sequence == (if o < 0 then 0 else Wire(o))
              && (r.0.sentRing[j].state.Acked? <==> o in h.reported + owners)
    {
      var o := Owner(h.sent, j);
      var q := h.st.sentRing[j].sequence;
      OwnerFacts(h.sent, j);
      if o in owners {
        var s :| s in r.1 && Owner(h.sent, Slot(s)) == o;
        OwnerFacts(h.sent, Slot(s));
        assert Slot(s) == j && q == s;
      }
      if q in r.1 && Slot(q) == j {
        assert o in owners;
      }
    }
  }

  lemma ArrivalKeepsRingMeaning(h: History, n: nat)
    requires ReceivedRingMeaning(h)
    ensures ReceivedRingMeaning(h.(st := ReceivePacket(h.st, Wire(n)), arrived := h.arrived + {n}))
  {
  }

  lemma StepKeepsMeaning(h: History, e: Event)
    requires Meaning(h)
    ensures Meaning(Step(h, e))
  {
    match e
    case Sent => SendKeepsMeaning(h);
    case Arrived(n, ack, bits) =>
      ArrivalKeepsRingMeaning(h, n);
      var h1 := h.(st := ReceivePacket(h.st, Wire(n)), arrived := h.arrived + {n});
      AcksKeepRingMeaning(h1, ack, bits);
      ReportIsFresh(h1, Selected(ack, bits));
  }

  lemma NewHistoryHasMeaning()
    ensures Meaning(NewHistory())
  {
  }

  /** Both rings mean what they should after any run, over any number of laps: a sent slot holds the
      last packet numbered into it and is Acked exactly if that packet was reported; a received slot is
      occupied exactly if some packet with its number modulo 1024 arrived. */
  lemma {:induction false} RunHasMeaning(events: seq<Event>)
    ensures Meaning(Run(events))
  {
    if events == [] {
      NewHistoryHasMeaning();
    } else {
      RunHasMeaning(events[..|events| - 1]);
      StepKeepsMeaning(Run(events[..|events| - 1]), events[|events| - 1]);
    }
  }

  /** Whatever headers arrive, the next report of any run names only packets that still own their slot
      and were never reported before: each packet is acknowledged at most once, and never after a later
      packet took its slot. */
  lemma AckedAtMostOnce(events: seq<Event>, n: nat, ack: SequenceNumber, bits: AckBits)
    ensures var h := Run(events);
            var reported := ReceiveHeader(h.st, Wire(n), ack, bits).1;
            forall s | s in reported ::
              var o := Owner(h.sent, Slot(s));
              && o !in h.reported && h.sent - 1024 <= o < h.sent
              && (o >= 0 ==> Wire(o) == s)
  {
    RunHasMeaning(events);
    ReportIsFresh(Run(events).(st := ReceivePacket(Run(events).st, Wire(n))), Selected(ack, bits));
  }

  lemma AckFieldMeaning(h: History, i: nat)
    requires ReceivedRingMeaning(h) && 1 <= i <= 32
    ensures Bit(AckField(h.st.receivedRing, h.st.received), 32 - i) <==>
            SomeInSlot(h.arrived, Slot(Back(h.st.received, i)))
  {
    AckFieldBit(h.st.receivedRing, h.st.received, i);
  }

  /** The exact meaning of an ack bit after any run: bit i of the next header is set exactly if some
      packet with the number (highest - i) modulo 1024 arrived. */
  lemma AckBitMeaning(events: seq<Event>, i: nat)
    requires 1 <= i <= 32
    ensures var h := Run(events);
            && (Bit(AckField(h.st.receivedRing, h.st.received), 32 - i) <==>
                SomeInSlot(h.arrived, Slot(Back(h.st.received, i))))
  {
    RunHasMeaning(events);
    AckFieldMeaning(Run(events), i);
  }
}
