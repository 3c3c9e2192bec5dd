/** Where guarantees stop, with the run that shows it. */
module Limits {
  import opened SequenceNumbers
  import opened PacketAcks
  import opened Bytes
  import opened Packing
  import opened Channels
  import opened Session
  import opened Guarantees
  import LossFreeRound

  const CLOCK := Clock(1, 200)

  /** One endpoint submits an empty message and sends it. */
  function SendEmpty(byA: bool, isReliable: bool): seq<Move> {
    [Move(byA, Submitted([], isReliable)), Move(byA, Emitted(CLOCK))]
  }

  /** Endpoint a sends `count` packets, each with one empty unreliable message. */
  function Burst(count: nat): seq<Move> {
    if count == 0 then [] else Burst(count - 1) + SendEmpty(true, false)
  }

  lemma {:induction false} PlaySendEmpty(moves: seq<Move>, byA: bool, isReliable: bool)
    ensures var w := Play(moves);
            var x := if byA then w.a else w.b;
            var x' := Emit(Submit(x, [], isReliable), CLOCK);
            Play(moves + SendEmpty(byA, isReliable)) == if byA then w.(a := x') else w.(b := x')
  {
    PlayMore(moves, SendEmpty(byA, isReliable)[0]);
    PlayMore(moves + [SendEmpty(byA, isReliable)[0]], SendEmpty(byA, isReliable)[1]);
    assert moves + SendEmpty(byA, isReliable) == moves + [SendEmpty(byA, isReliable)[0]] + [SendEmpty(byA, isReliable)[1]];
  }

  /** Nothing queued is due, and one empty unreliable message waits: what a packet then takes. */
  lemma WritesEmptyUnreliable(st: PeerState, numbers: seq<nat>, packet: SequenceNumber)
    requires st.unreliable == [[]] && |numbers| == |st.reliable|
    requires forall m | m in st.reliable :: m.message == [] && !Due(m, CLOCK)
    ensures var w := WritePacket(st, 9, packet, CLOCK).st;
            var stop := WalkReliable(st.reliable, 0, 9, CLOCK).stop;
            && w == st.(unreliable := [], hasReliable := false)
            && DueNumbers(st.reliable[..stop], numbers[..stop], CLOCK) == []
  {
    var q := st.reliable;
    WalkOverQuiet(q, 0);
    NothingDue(q[..|q|], CLOCK);
    assert q[..|q|] == q && numbers[..|q|] == numbers;
    var one: seq<Payload> := [[]];
    assert TakeUnreliable(one[1..], 14) == 0 && one[1..] == [];
    assert TakeUnreliable(one, 9) == 1;
    NoNumbersDue(q, numbers);
    assert StampUpTo(q, |q|, packet, CLOCK) == q;
  }

  /** An idle endpoint sends one empty unreliable message. */
  lemma EmitsEmptyUnreliable(x: Endpoint)
    requires SenderOk(x) && Idle(x)
    ensures SentUnreliable(x, Emit(Submit(x, [], false), CLOCK))
  {
    var s := Submit(x, [], false);
    assert s.peer.unreliable == [[]];
    WritesEmptyUnreliable(s.peer, x.numbers, x.acks.st.generator);
    assert WrittenNumbers(s, CLOCK) == [];
    assert SetOf([]) == {};
  }

  lemma {:induction false} WalkOverQuiet(q: seq<ReliableMessage>, i: nat)
    requires i <= |q| && forall m | m in q :: m.message == [] && !Due(m, CLOCK)
    ensures WalkReliable(q, i, 9, CLOCK) == Walk(|q|, 9)
    decreases |q| - i
  {
    if i < |q| {
      assert q[i] in q;
      WalkOverQuiet(q, i + 1);
    }
  }

  lemma {:induction false} NoNumbersDue(q: seq<ReliableMessage>, numbers: seq<nat>)
    requires |q| == |numbers| && forall m | m in q :: !Due(m, CLOCK)
    ensures DueNumbers(q, numbers, CLOCK) == []
  {
    if q != [] {
      assert q[0] in q;
      NoNumbersDue(q[1..], numbers[1..]);
    }
  }

  /** What sending one empty reliable message changes when nothing else is queued. */
  ghost predicate SentReliable(x: Endpoint, x': Endpoint) {
    && x'.peer.reliable == [ReliableMessage([], 1, x.acks.st.generator, x.peer.generator)]
    && x'.peer.unreliable == [] && !x'.peer.hasReliable
    && x'.numbers == [|x.accepted|] && |x.accepted| in x'.written && x'.handed == x.handed
    && |x'.records| == |x.records| + 1 && x.records <= x'.records
    && x'.acks.sent == x.acks.sent + 1 && x'.acks.reported == x.acks.reported
  }

  lemma WritesEmptyReliable(m: ReliableMessage, number: nat, packet: SequenceNumber)
    requires m.message == [] && m.sentTimeMs == 0
    ensures NumbersTaken([m], [number], CLOCK) == [number]
    ensures WalkReliable([m], 0, 9, CLOCK) == Walk(1, 14)
    ensures StampUpTo([m], 1, packet, CLOCK) == [m.(sentTimeMs := 1, packetSequenceNum := packet)]
  {
    assert [m][..1] == [m] && [number][..1] == [number];
    assert DueNumbers([m][1..], [number][1..], CLOCK) == [];
  }

  /** One empty reliable message goes out in the next packet. */
  lemma EmitsEmptyReliable(x: Endpoint)
    requires SenderOk(x) && x.peer.unreliable == [] && x.peer.reliable == []
    ensures SentReliable(x, Emit(Submit(x, [], true), CLOCK))
  {
    var s := Submit(x, [], true);
    var m := ReliableMessage([], 0, 0, x.peer.generator);
    assert x.numbers == [] && s.peer.reliable == [m] && s.numbers == [|x.accepted|];
    WritesEmptyReliable(m, |x.accepted|, x.acks.st.generator);
    assert |x.accepted| in SetOf([|x.accepted|]);
  }

  /** What sending one empty unreliable message changes. */
  ghost predicate SentUnreliable(x: Endpoint, x': Endpoint) {
    && x'.peer.reliable == x.peer.reliable && x'.peer.unreliable == [] && !x'.peer.hasReliable
    && x'.numbers == x.numbers && x'.accepted == x.accepted && x'.written == x.written && x'.handed == x.handed
    && |x'.records| == |x.records| + 1 && x.records <= x'.records && x'.records[|x.records|].numbers == []
    && x'.records[|x.records|].seen == x.acks.arrived && x'.records[|x.records|].highest == x.highest
    && x'.acks.sent == x.acks.sent + 1 && x'.acks.arrived == x.acks.arrived && x'.acks.reported == x.acks.reported
  }

  ghost predicate Idle(x: Endpoint) {
    && x.peer.unreliable == [] && !x.peer.hasReliable
    && (forall m | m in x.peer.reliable :: m.message == [] && !Due(m, CLOCK))
  }

  lemma {:induction false} SendsUnreliable(moves: seq<Move>, byA: bool)
    requires var w := Play(moves); Idle(if byA then w.a else w.b)
    ensures var w := Play(moves);
            var w' := Play(moves + SendEmpty(byA, false));
            && (byA ==> SentUnreliable(w.a, w'.a) && w'.b == w.b)
            && (!byA ==> SentUnreliable(w.b, w'.b) && w'.a == w.a)
  {
    var w := Play(moves);
    SendersOk(moves);
    PlaySendEmpty(moves, byA, false);
    if byA {
      EmitsEmptyUnreliable(w.a);
    } else {
      EmitsEmptyUnreliable(w.b);
    }
  }

  lemma {:induction false} SendersOk(moves: seq<Move>)
    ensures SenderOk(Play(moves).a) && SenderOk(Play(moves).b)
  {
    PlayKeepsInv(moves);
  }

  /** After the burst: nothing queued, nothing carried, nothing acknowledged. */
  ghost predicate Quiet(x: Endpoint, count: nat) {
    && x.peer.reliable == [] && x.peer.unreliable == [] && !x.peer.hasReliable
    && x.numbers == [] && x.accepted == [] && x.written == {} && x.handed == {}
    && |x.records| == count && (forall n | 0 <= n < count :: x.records[n].numbers == [])
    && x.acks.arrived == {} && x.acks.reported == {} && x.acks.sent == count
  }

  lemma QuietStep(x: Endpoint, x': Endpoint, count: nat)
    requires Quiet(x, count) && SentUnreliable(x, x')
    ensures Quiet(x', count + 1)
  {
  }

  lemma {:induction false} BurstGoesOn(moves: seq<Move>, count: nat)
    requires Play(moves).b == NewEndpoint() && Quiet(Play(moves).a, count)
    ensures var w := Play(moves + SendEmpty(true, false)); w.b == NewEndpoint() && Quiet(w.a, count + 1)
  {
    SendsUnreliable(moves, true);
    QuietStep(Play(moves).a, Play(moves + SendEmpty(true, false)).a, count);
  }

  lemma {:induction false} BurstIsQuiet(count: nat)
    ensures var w := Play(Burst(count)); w.b == NewEndpoint() && Quiet(w.a, count)
  {
    if count > 0 {
      BurstIsQuiet(count - 1);
      BurstGoesOn(Burst(count - 1), count - 1);
    }
  }

  /** Endpoint b receives packet `n` of a, which carries no reliable message. */
  lemma {:induction false} ReceivesNothing(moves: seq<Move>, n: nat)
    requires var w := Play(moves);
             && n < |w.a.records| && w.a.records[n].numbers == []
             && w.b.peer.reliable == [] && w.b.peer.unreliable == [] && !w.b.peer.hasReliable
    ensures var w := Play(moves);
            var w' := Play(moves + [Move(false, Delivery(n))]);
            && w'.a == w.a && w'.b.handed == w.b.handed
            && w'.b.peer.reliable == [] && w'.b.peer.unreliable == [] && !w'.b.peer.hasReliable
            && w'.b.records == w.b.records
            && w'.b.acks.arrived == w.b.acks.arrived + {n} && w'.b.highest == Max(w.b.highest, n)
  {
    var w := Play(moves);
    PlayKeepsInv(moves);
    PlayMore(moves, Move(false, Delivery(n)));
    DeliverReads(w.b, w.a, n);
    ReceiveLeavesSender(w.b.peer, w.a.records[n].entries);
    assert SetOf(w.a.records[n].numbers) == {};
  }

  /** Packets 0 to n-1, then packet n with reliable message 0, then packet n+1. */
  function Sending(n: nat): seq<Move> {
    Burst(n) + SendEmpty(true, true) + SendEmpty(true, false)
  }

  /** Only message 0 is queued; packet n carried it. */
  ghost predicate Loaded(x: Endpoint, n: nat, count: nat) {
    && Idle(x)
    && |x.peer.reliable| == 1 && x.peer.reliable[0].packetSequenceNum == Wire(n)
    && x.numbers == [0] && 0 in x.written
    && |x.records| == count > n && (n > 0 ==> x.records[0].numbers == [])
    && x.acks.reported == {} && x.acks.sent == count
  }

  lemma LoadStep(x: Endpoint, x': Endpoint, n: nat)
    requires Quiet(x, n) && x.acks.st.generator == Wire(n) && SentReliable(x, x')
    ensures Loaded(x', n, n + 1)
  {
  }

  lemma {:induction false} LoadsMessage(n: nat)
    ensures var w := Play(Burst(n) + SendEmpty(true, true)); w.b == NewEndpoint() && Loaded(w.a, n, n + 1)
  {
    BurstIsQuiet(n);
    SendersOk(Burst(n));
    EmitsEmptyReliable(Play(Burst(n)).a);
    LoadStep(Play(Burst(n)).a, Emit(Submit(Play(Burst(n)).a, [], true), CLOCK), n);
    PlaySendEmpty(Burst(n), true, true);
  }

  lemma {:induction false} AfterSending(n: nat)
    requires n > 0
    ensures var w := Play(Sending(n));
            w.b == NewEndpoint() && Loaded(w.a, n, n + 2) && w.a.records[n + 1].numbers == []
  {
    LoadsMessage(n);
    SendsUnreliable(Burst(n) + SendEmpty(true, true), true);
  }

  function Arriving(n: nat): seq<Move> {
    Sending(n) + [Move(false, Delivery(0))] + [Move(false, Delivery(n + 1))]
  }

  lemma {:induction false} AfterArriving(n: nat)
    requires n > 0
    ensures var w := Play(Arriving(n));
            && w.a == Play(Sending(n)).a
            && w.b.handed == {} && w.b.records == [] && Idle(w.b)
            && w.b.acks.arrived == {0, n + 1} && w.b.highest == n + 1
  {
    AfterSending(n);
    ReceivesNothing(Sending(n), 0);
    ReceivesNothing(Sending(n) + [Move(false, Delivery(0))], n + 1);
  }

  /** Only packets 0 and n+1 arrive; then b replies. */
  function Losing(n: nat): seq<Move> {
    Arriving(n) + SendEmpty(false, false)
  }

  lemma {:induction false} AfterLosing(n: nat)
    requires n > 0
    ensures var w := Play(Losing(n));
            && Loaded(w.a, n, n + 2)
            && w.b.handed == {} && |w.b.records| == 1
            && w.b.records[0].seen == {0, n + 1} && w.b.records[0].highest == n + 1
  {
    AfterSending(n);
    AfterArriving(n);
    SendsUnreliable(Arriving(n), false);
  }

  /** Bit 1 of the reply says that packet 1024 arrived: slot 0 remembers packet 0. */
  lemma ReplySelects1024(r: PacketRecord, arrived: set<nat>, n: nat)
    requires n == 1024 && RecordAcksOk(r, arrived, n + 2) && r.seen == {0, n + 1} && r.highest == n + 1
    ensures Wire(n) in Selected(r.ack, r.bits)
  {
    assert Back(r.ack, 1) == 1024 && 0 in r.seen && 0 % 1024 == Slot(1024);
    assert Bit(r.bits, 32 - 1);
  }

  lemma SlotOf1024IsOpen(h: History, n: nat)
    requires n == 1024 && SentRingMeaning(h) && h.sent == n + 2 && h.reported == {}
    ensures h.st.sentRing[Slot(Wire(n))].sequence == Wire(n)
    ensures !h.st.sentRing[Slot(Wire(n))].state.Acked?
  {
  }

  /** The reply acknowledges packet 1024, which never arrived. */
  lemma {:induction false} LostPacketIsReported(n: nat)
    requires n == 1024
    ensures var w := Play(Losing(n)); |w.b.records| == 1 && Wire(n) in ReportOf(w.a, w.b, 0)
  {
    AfterLosing(n);
    PlayKeepsInv(Losing(n));
    var w := Play(Losing(n));
    assert RecordAcksOk(w.b.records[0], w.b.acks.arrived, |w.a.records|);
    ReplySelects1024(w.b.records[0], w.b.acks.arrived, n);
    SlotOf1024IsOpen(w.a.acks, n);
  }

  function Lossy(n: nat): seq<Move> {
    Losing(n) + [Move(true, Delivery(0))]
  }

  /** A written message that is neither queued nor received, after 1026 packets. */
  lemma {:induction false} WrittenMessageIsLost(n: nat)
    requires n == 1024
    ensures var w := Play(Lossy(n));
            |w.a.records| == n + 2 && 0 in w.a.written && !AccountedFor(w, 0)
  {
    AfterLosing(n);
    LostPacketIsReported(n);
    SendersOk(Losing(n));
    PlayMore(Losing(n), Move(true, Delivery(0)));
    var w := Play(Losing(n));
    LossFreeRound.RemovedIff(w.a, w.b, 0, 0);
    DeliverReads(w.a, w.b, 0);
  }

  ghost predicate NoLossUpTo(bound: nat) {
    forall moves | |Play(moves).a.records| <= bound ::
      forall k | k in Play(moves).a.written :: AccountedFor(Play(moves), k)
  }

  /** Runs with at most `bound` packets in a direction never lose a written message, exactly for bounds
      up to 1025. */
  lemma LossBoundIsExact(bound: nat)
    ensures NoLossUpTo(bound) <==> bound <= 1025
  {
    if bound <= 1025 {
      forall moves | |Play(moves).a.records| <= bound
        ensures forall k | k in Play(moves).a.written :: AccountedFor(Play(moves), k)
      {
        NoWrittenMessageIsLost(moves);
      }
    } else {
      var n: nat :| n == 1024;
      WrittenMessageIsLost(n);
      assert |Play(Lossy(n)).a.records| <= bound;
    }
  }

  // ---------------------------------------------------------------------------------------------
  // A message that is lost before it was written

  /** Packet 0 arrives and b replies; a accepts a reliable message. */
  function Replied(): seq<Move> {
    Burst(1) + [Move(false, Delivery(0))] + SendEmpty(false, false)
  }

  function Waiting(): seq<Move> {
    Replied() + [Move(true, Submitted([], true))]
  }

  lemma {:induction false} AfterReplied()
    ensures var w := Play(Replied());
            && Quiet(w.a, 1) && |w.b.records| == 1
            && w.b.records[0].seen == {0} && w.b.records[0].highest == 0
  {
    BurstIsQuiet(1);
    ReceivesNothing(Burst(1), 0);
    SendsUnreliable(Burst(1) + [Move(false, Delivery(0))], false);
  }

  /** Slot 0 still waits for the ack of packet 0, and the reply acks it. */
  lemma ReplyReportsZero(x: Endpoint, y: Endpoint)
    requires SentRingMeaning(x.acks) && x.acks.sent == 1 && x.acks.reported == {}
    requires |y.records| == 1 && y.records[0].ack == 0
    ensures 0 in ReportOf(x, y, 0)
  {
    assert Owner(1, 0) == 0;
    assert x.acks.st.sentRing[0].sequence == 0 && !x.acks.st.sentRing[0].state.Acked?;
    assert 0 in Selected(0, y.records[0].bits);
  }

  lemma SubmitsUnwritten(x: Endpoint)
    requires Quiet(x, 1)
    ensures var x' := Submit(x, [], true);
            && Unwritten(x', 0) && |x'.accepted| == 1 && x'.written == {}
            && x'.acks == x.acks && x'.records == x.records
  {
  }

  lemma {:induction false} AfterWaiting()
    ensures var w := Play(Waiting());
            && Unwritten(w.a, 0) && |w.a.accepted| == 1 && w.a.written == {} && |w.a.records| == 1
            && |w.b.records| == 1 && 0 in ReportOf(w.a, w.b, 0)
  {
    AfterReplied();
    PlayMore(Replied(), Move(true, Submitted([], true)));
    SubmitsUnwritten(Play(Replied()).a);
    PlayKeepsInv(Replied());
    var w := Play(Replied());
    assert RecordAcksOk(w.b.records[0], w.b.acks.arrived, |w.a.records|);
    ReplyReportsZero(Play(Waiting()).a, w.b);
  }

  /** What reading a packet leaves alone. */
  lemma {:induction false} ReadingLeaves(moves: seq<Move>)
    requires |Play(moves).b.records| > 0
    ensures var w := Play(moves);
            var w' := Play(moves + [Move(true, Delivery(0))]);
            w'.b == w.b && w'.a.accepted == w.a.accepted && w'.a.written == w.a.written && w'.a.records == w.a.records
  {
    PlayMore(moves, Move(true, Delivery(0)));
    SendersOk(moves);
    DeliverReads(Play(moves).a, Play(moves).b, 0);
  }

  /** One packet each way is enough: reading the report of packet 0 removes the message that was accepted
      after it and never written. */
  lemma {:induction false} UnwrittenMessageIsLost()
    ensures var w := Play(Waiting() + [Move(true, Delivery(0))]);
            && |w.a.records| == 1 && |w.b.records| == 1
            && |w.a.accepted| == 1 && w.a.written == {} && 0 in w.a.lost
  {
    AfterWaiting();
    ReadingLeaves(Waiting());
    PlayMore(Waiting(), Move(true, Delivery(0)));
    LostExactlyByReportOfZero(Waiting(), Move(true, Delivery(0)), 0);
  }

  // ---------------------------------------------------------------------------------------------
  // A message that the send loop never gets rid of

  /** Peer::send takes messages of up to 1336 bytes, but alone in the queue one over 1327 bytes keeps the
      loop going for ever. */
  lemma {:induction false} OversizedNeverEnds(m: Payload, isReliable: bool, first: SequenceNumber, c: Clock, n: nat)
    requires LARGEST_FITTING < |m| <= MAX_MESSAGE_SIZE_BYTES && Running(c)
    ensures HasDataToSend(AfterPasses(Accept(NEW_PEER_STATE, m, isReliable), first, c, n))
  {
    var st := Accept(NEW_PEER_STATE, m, isReliable);
    assert !LoopEnds(st, c);
    SendLoopGoesOn(st, first, c, n);
  }
}
