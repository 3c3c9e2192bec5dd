/** What a reply removes from the queue of the sender that reads it, over any number of laps of rings and
    counters; so one round without loss clears what it carried. */
module LossFreeRound {
  import opened SequenceNumbers
  import opened PacketAcks
  import opened Bytes
  import opened Packing
  import opened Channels
  import opened Session

  /** The slot of sequence number `p` holds `p`, acknowledged. */
  predicate SlotAcked(ring: Ring, p: SequenceNumber) {
    ring[Slot(p)].sequence == p && ring[Slot(p)].state.Acked?
  }

  /** No written message in the queue waits for a packet that was already acknowledged. */
  ghost predicate Clean(x: Endpoint) {
    |x.numbers| == |x.peer.reliable| &&
    forall i | 0 <= i < |x.numbers| ::
      x.numbers[i] in x.written ==> !SlotAcked(x.acks.st.sentRing, x.peer.reliable[i].packetSequenceNum)
  }

  lemma SubmitKeepsClean(x: Endpoint, message: Payload, isReliable: bool)
    requires SenderOk(x) && Clean(x)
    ensures Clean(Submit(x, message, isReliable))
  {
  }

  lemma EmitKeepsClean(x: Endpoint, c: Clock)
    requires SenderOk(x) && Clean(x)
    ensures Clean(Emit(x, c))
  {
    if HasDataToSend(x.peer) {
      var x' := Emit(x, c);
      var stop := WalkReliable(x.peer.reliable, 0, PACKET_HEADER_SIZE_BYTES, c).stop;
      EmitPasses(x, c);
      assert x'.acks.st.sentRing == x.acks.st.sentRing[Slot(Wire(x.acks.sent)) := PacketData(Wire(x.acks.sent), Empty)];
      PassKeepsClean(x, x', stop, c);
    }
  }

  lemma PassKeepsClean(x: Endpoint, x': Endpoint, stop: nat, c: Clock)
    requires PassedTo(x, x', stop, c) && Clean(x)
    requires forall a, b | 0 <= a < b < |x.numbers| :: x.numbers[a] < x.numbers[b]
    requires var s := Wire(|x.records|);
             x'.acks.st.sentRing == x.acks.st.sentRing[Slot(s) := PacketData(s, Empty)]
    ensures Clean(x')
  {
    forall i | 0 <= i < |x'.numbers| && x'.numbers[i] in x'.written
      ensures !SlotAcked(x'.acks.st.sentRing, x'.peer.reliable[i].packetSequenceNum)
    {
      var m := x.peer.reliable[i];
      if x.numbers[i] !in x.written {
        DueIsOwnNumber(x.peer.reliable, x.numbers, stop, c, i);
      } else if !(i < stop && Due(m, c)) {
        assert x'.peer.reliable[i] == m;
      }
    }
  }

  lemma DeliveryKeepsClean(x: Endpoint, y: Endpoint, n: nat)
    requires SenderOk(x) && SenderOk(y) && Clean(x) && n < |y.records|
    ensures Clean(TakeDelivery(x, y, n))
  {
    DeliverReads(x, y, n);
    DeliverReduces(x, y, n);
    ReductionKeepsClean(x, TakeDelivery(x, y, n), ReportOf(x, y, n));
  }

  lemma ReductionKeepsClean(x: Endpoint, x': Endpoint, report: set<SequenceNumber>)
    requires Clean(x) && ReducedTo(x, x', Kept(x.peer.reliable, report, 0))
    requires x'.acks.st.sentRing == MarkAcked(x.acks.st.sentRing, report)
    ensures Clean(x')
  {
  }

  lemma {:induction false} PlayKeepsClean(moves: seq<Move>)
    ensures Clean(Play(moves).a) && Clean(Play(moves).b)
  {
    if moves != [] {
      var init := moves[..|moves| - 1];
      PlayKeepsClean(init);
      PlayKeepsInv(init);
      var m := moves[|moves| - 1];
      var w := Play(init);
      if m.byA {
        ActKeepsClean(w.a, w.b, m.action);
      } else {
        ActKeepsClean(w.b, w.a, m.action);
      }
    }
  }

  lemma ActKeepsClean(x: Endpoint, y: Endpoint, a: Action)
    requires SenderOk(x) && SenderOk(y) && Clean(x)
    ensures Clean(Act(x, y, a))
  {
    match a
    case Submitted(message, isReliable) => SubmitKeepsClean(x, message, isReliable);
    case Emitted(c) => EmitKeepsClean(x, c);
    case Delivery(n) =>
      if n < |y.records| {
        DeliveryKeepsClean(x, y, n);
      }
    case Flushed =>
  }

  // ---------------------------------------------------------------------------------------------
  // What one ack field selects

  /** How far packet `n` lies behind an ack on the wire. */
  function Gap(ack: SequenceNumber, n: int): SequenceNumber {
    Wire(ack - n)
  }

  lemma GapBack(ack: SequenceNumber, n: int, i: int)
    requires 0 <= i < 65536
    ensures Gap(ack, n) == i <==> Back(ack, i) == Wire(n)
  {
    WireParts(n);
    WireParts(ack - n);
    WireParts(ack - i);
  }

  /** An ack field selects the number it names and those of the 32 numbers before it whose bit is set, for
      packets of any lap. */
  lemma AckWindow(ack: SequenceNumber, bits: AckBits, n: int)
    ensures var gap := Gap(ack, n);
            Wire(n) in Selected(ack, bits) <==> gap == 0 || (gap <= 32 && Bit(bits, 32 - gap))
  {
    GapBack(ack, n, 0);
    GapBack(ack, n, Gap(ack, n));
    if i: nat :| 1 <= i <= 32 && Bit(bits, 32 - i) && Wire(n) == Back(ack, i) {
      GapBack(ack, n, i);
    }
  }

  ghost predicate BitsMean(r: PacketRecord) {
    forall i: nat | 1 <= i <= 32 ::
      Bit(r.bits, 32 - i) <==> SomeInSlot(r.seen, Slot(Back(r.ack, i)))
  }

  /** The reply's ack field speaks for packet `n`: it names its number, or a number up to 32 after it when
      some packet with the number of `n` modulo 1024 had arrived. */
  ghost predicate SpeaksFor(r: PacketRecord, n: nat) {
    var gap := Gap(r.ack, n);
    gap == 0 || (gap <= 32 && SomeInSlot(r.seen, n % 1024))
  }

  lemma SelectedIff(r: PacketRecord, n: nat)
    requires BitsMean(r)
    ensures Wire(n) in Selected(r.ack, r.bits) <==> SpeaksFor(r, n)
  {
    var gap := Gap(r.ack, n);
    AckWindow(r.ack, r.bits, n);
    GapBack(r.ack, n, gap);
    WireKeepsSlot(n);
  }

  /** The last of `sent` packets in the slot of packet `n` has the sequence number of `n`. */
  predicate HoldsSlot(sent: nat, n: nat) {
    Wire(Owner(sent, n % 1024)) == Wire(n)
  }

  lemma SlotIff(h: History, n: nat)
    requires SentRingMeaning(h) && n < h.sent
    ensures h.st.sentRing[Slot(Wire(n))].sequence == Wire(n) <==> HoldsSlot(h.sent, n)
  {
    WireKeepsSlot(n);
    OwnerFacts(h.sent, n % 1024);
    assert Owner(h.sent, n % 1024) >= n;
  }

  lemma HoldsSlotInLap(sent: nat, n: nat)
    requires n < sent < n + 65536
    ensures HoldsSlot(sent, n) <==> sent - 1024 <= n
  {
    OwnerFacts(sent, n % 1024);
    var o := Owner(sent, n % 1024);
    if HoldsSlot(sent, n) {
      WireIsInjectiveWithinALap(o, n);
    } else if sent - 1024 <= n {
      SameSlotIsSame(o, n);
    }
  }

  // ---------------------------------------------------------------------------------------------
  // What one reply removes

  /** Reading the reply removes a message whose last packet is `n`. */
  ghost predicate Takes(sent: nat, r: PacketRecord, n: nat) {
    HoldsSlot(sent, n) && SpeaksFor(r, n)
  }

  /** In any run, over any laps of rings and counters, and however late the reply: reading it removes a
      queued message exactly if the slot of its last packet still holds that packet's number and the ack
      field speaks for it. */
  lemma {:induction false} ReplyRemovesIff(moves: seq<Move>, reply: nat, i: nat, n: nat)
    requires var w := Play(moves);
             && reply < |w.b.records| && i < |w.a.numbers| && n < |w.a.records| && LastCarrier(w.a, w.a.numbers[i], n)
    ensures var w := Play(moves);
            w.a.numbers[i] !in TakeDelivery(w.a, w.b, reply).numbers <==> Takes(|w.a.records|, w.b.records[reply], n)
  {
    PlayKeepsInv(moves);
    PlayKeepsClean(moves);
    ReplyTakes(Play(moves).a, Play(moves).b, reply, i, n);
  }

  lemma ReplyTakes(x: Endpoint, y: Endpoint, reply: nat, i: nat, n: nat)
    requires SenderOk(x) && SenderOk(y) && Link(x, y) && Clean(x)
    requires reply < |y.records| && i < |x.numbers| && n < |x.records| && LastCarrier(x, x.numbers[i], n)
    ensures x.numbers[i] !in TakeDelivery(x, y, reply).numbers <==> Takes(|x.records|, y.records[reply], n)
  {
    ReplyBitsMean(x, y, reply);
    CarrierOfWritten(x, i, n);
    SelectedIff(y.records[reply], n);
    SlotIff(x.acks, n);
    ReportedIff(x, y, reply, i);
    RemovedIff(x, y, reply, i);
  }

  /** Within a lap: an ack of packet `h` takes the last 1024 packets' messages from `h` itself, and from
      those of the 32 packets before it for whose number modulo 1024 something had arrived. */
  lemma TakesInLapIff(sent: nat, r: PacketRecord, h: int, n: nat)
    requires r.ack == Wire(h) && h - 65536 + 32 < n <= h && n < sent < n + 65536
    ensures Takes(sent, r, n) <==> sent - 1024 <= n && (n == h || (h - 32 <= n && SomeInSlot(r.seen, n % 1024)))
  {
    HoldsSlotInLap(sent, n);
    WireOfWire(h, 0 - n as int);
    assert Gap(r.ack, n) == h - n;
  }

  /** A reply that acks the last packet sent, and comes back before anything else is sent, removes what the
      last packet carried, and what those of the 32 before it carried for whose number modulo 1024
      something had arrived; nothing else of the last lap. */
  lemma {:induction false} RoundClearsLast33(moves: seq<Move>, reply: nat, i: nat, n: nat)
    requires var w := Play(moves);
             && reply < |w.b.records| && w.b.records[reply].ack == Wire(|w.a.records| - 1)
             && i < |w.a.numbers| && n < |w.a.records| && |w.a.records| - 65536 + 32 <= n
             && LastCarrier(w.a, w.a.numbers[i], n)
    ensures var w := Play(moves);
            w.a.numbers[i] !in TakeDelivery(w.a, w.b, reply).numbers <==>
            n == |w.a.records| - 1 || (n >= |w.a.records| - 33 && SomeInSlot(w.b.records[reply].seen, n % 1024))
  {
    var w := Play(moves);
    ReplyRemovesIff(moves, reply, i, n);
    TakesInLapIff(|w.a.records|, w.b.records[reply], |w.a.records| - 1, n);
  }

  /** A loss-free round clears its frame, whatever was lost before it: if the packets from `first` on, at
      most 33, had all arrived when the reply that acks the last one was written, and it comes back before
      anything else is sent, then every message written in them is gone. */
  lemma {:induction false} RoundClearsFrame(moves: seq<Move>, reply: nat, first: nat, i: nat, n: nat)
    requires var w := Play(moves);
             && reply < |w.b.records| && w.b.records[reply].ack == Wire(|w.a.records| - 1)
             && |w.a.records| - 33 <= first && (forall m | first <= m < |w.a.records| :: m in w.b.records[reply].seen)
             && i < |w.a.numbers| && first <= n < |w.a.records| && LastCarrier(w.a, w.a.numbers[i], n)
    ensures var w := Play(moves);
            w.a.numbers[i] !in TakeDelivery(w.a, w.b, reply).numbers
  {
    RoundClearsLast33(moves, reply, i, n);
    assert n in Play(moves).b.records[reply].seen;
  }

  /** Up to 32767 packets, a reply written when the last packet had arrived acks it. */
  lemma {:induction false} LastArrivedIsAcked(moves: seq<Move>, reply: nat, w: World)
    requires w == Play(moves) && reply < |w.b.records| && 0 < |w.a.records| <= 32767
    requires |w.a.records| - 1 in w.b.records[reply].seen
    ensures w.b.records[reply].ack == Wire(|w.a.records| - 1)
  {
    PlayKeepsInv(moves);
    LastSeenIsAcked(w.a, w.b, reply);
  }

  lemma LastSeenIsAcked(x: Endpoint, y: Endpoint, reply: nat)
    requires Link(x, y) && reply < |y.records| && 0 < |x.records| <= 32767
    requires |x.records| - 1 in y.records[reply].seen
    ensures y.records[reply].ack == Wire(|x.records| - 1)
  {
    var r := y.records[reply];
    assert RecordAcksOk(r, y.acks.arrived, |x.records|);
    assert r.highest == |x.records| - 1;
  }

  lemma ReplyBitsMean(x: Endpoint, y: Endpoint, reply: nat)
    requires Link(x, y) && reply < |y.records|
    ensures BitsMean(y.records[reply])
  {
  }

  lemma OneLastCarrier(x: Endpoint, k: nat, m: nat, n: nat)
    requires m < |x.records| && n < |x.records| && LastCarrier(x, k, m) && LastCarrier(x, k, n)
    ensures m == n
  {
  }

  lemma CarrierOfWritten(x: Endpoint, i: nat, n: nat)
    requires SenderOk(x) && i < |x.numbers| && n < |x.records| && LastCarrier(x, x.numbers[i], n)
    ensures x.numbers[i] in x.written && x.peer.reliable[i].packetSequenceNum == Wire(n)
  {
    assert PacketOk(x, n);
    var j :| 0 <= j < |x.records[n].numbers| && x.records[n].numbers[j] == x.numbers[i];
    var m := CarrierOf(x, i);
    OneLastCarrier(x, x.numbers[i], m, n);
  }

  /** For a written message, its packet is reported exactly if it is selected and still in its slot. */
  lemma ReportedIff(x: Endpoint, y: Endpoint, reply: nat, i: nat)
    requires Clean(x) && reply < |y.records| && i < |x.numbers| && x.numbers[i] in x.written
    ensures var p := x.peer.reliable[i].packetSequenceNum;
            p in ReportOf(x, y, reply) <==>
            p in Selected(y.records[reply].ack, y.records[reply].bits) && x.acks.st.sentRing[Slot(p)].sequence == p
  {
  }

  lemma RemovedIff(x: Endpoint, y: Endpoint, reply: nat, i: nat)
    requires SenderOk(x) && SenderOk(y) && reply < |y.records| && i < |x.numbers|
    ensures x.numbers[i] !in TakeDelivery(x, y, reply).numbers <==>
            x.peer.reliable[i].packetSequenceNum in ReportOf(x, y, reply)
  {
    var kept := Kept(x.peer.reliable, ReportOf(x, y, reply), 0);
    DeliverReduces(x, y, reply);
    KeptStays(x.numbers, kept, i);
    KeptOnly(x.numbers, kept, i);
  }

  lemma KeptOnly(numbers: seq<nat>, kept: seq<nat>, i: nat)
    requires i < |numbers| && forall a | 0 <= a < |kept| :: kept[a] < |numbers|
    requires forall a, b | 0 <= a < b < |numbers| :: numbers[a] < numbers[b]
    ensures numbers[i] in Select(numbers, kept) ==> i in kept
  {
  }
}
