/** What a session guarantees in every reachable state, for the direction from endpoint `a` to `b`
    (the other direction is the same with the names exchanged). */
module Guarantees {
  import opened SequenceNumbers
  import opened Channels
  import opened OrderedChannel
  import opened Session

  /** Up to 1025 packets, however late, repeated or reordered the packets that carry the acks are:
      every sequence number the code reports as acknowledged is a packet that was sent and received. */
  lemma {:induction false} AcksAreTrue(moves: seq<Move>, n: nat)
    requires var w := Play(moves); |w.a.records| <= 1025 && n < |w.b.records|
    ensures var w := Play(moves);
            forall s | s in ReportOf(w.a, w.b, n) :: s < |w.a.records| && s in w.b.acks.arrived
  {
    var w := Play(moves);
    PlayKeepsInv(moves);
    forall s | s in ReportOf(w.a, w.b, n)
      ensures s < |w.a.records| && s in w.b.acks.arrived
    {
      ReportIsTrue(w.a, w.b, n, s);
    }
  }

  /** Message `k` is still queued, or has been handed to the receiving channel. */
  ghost predicate AccountedFor(w: World, k: nat) {
    k in w.a.numbers || k in w.b.handed
  }

  /** Up to 1025 packets no written message is lost, and an accepted message is missing exactly if an
      ack removed it before it was ever written. */
  lemma {:induction false} NoWrittenMessageIsLost(moves: seq<Move>)
    requires |Play(moves).a.records| <= 1025
    ensures var w := Play(moves);
            && (forall k | k in w.a.written :: AccountedFor(w, k))
            && (forall k | 0 <= k < |w.a.accepted| :: !AccountedFor(w, k) <==> k in w.a.lost)
            && |w.a.numbers| == |w.a.peer.reliable|
            && (forall i | 0 <= i < |w.a.numbers| ::
                  w.a.numbers[i] < |w.a.accepted| && w.a.peer.reliable[i].message == w.a.accepted[w.a.numbers[i]])
  {
    var w := Play(moves);
    PlayKeepsInv(moves);
    forall i | 0 <= i < |w.a.numbers|
      ensures w.a.numbers[i] < |w.a.accepted| && w.a.peer.reliable[i].message == w.a.accepted[w.a.numbers[i]]
    {
      assert ItemOk(w.a, w.a.peer.reliable[i], w.a.numbers[i]);
    }
  }

  /** Message number `k` is queued but was never written. */
  ghost predicate Unwritten(x: Endpoint, k: nat) {
    k in x.numbers && k !in x.written
  }

  /** In any run, a step loses message `k` exactly if `k` is queued unwritten and the step reads a
      report of sequence number 0, the value of the packet field of an unwritten message. */
  lemma {:induction false} LostExactlyByReportOfZero(moves: seq<Move>, m: Move, k: nat)
    ensures var w := Play(moves);
            var w' := Next(w, m);
            && (k in w'.a.lost && k !in w.a.lost <==>
                m.byA && m.action.Delivery? && m.action.n < |w.b.records| &&
                Unwritten(w.a, k) && 0 in ReportOf(w.a, w.b, m.action.n))
  {
    var w := Play(moves);
    PlayKeepsInv(moves);
    if m.byA && m.action.Delivery? && m.action.n < |w.b.records| {
      LostByDelivery(w.a, w.b, m.action.n, k);
    }
  }

  lemma LostByDelivery(x: Endpoint, y: Endpoint, n: nat, k: nat)
    requires SenderOk(x) && SenderOk(y) && n < |y.records|
    ensures k in TakeDelivery(x, y, n).lost && k !in x.lost <==> Unwritten(x, k) && 0 in ReportOf(x, y, n)
  {
    var kept := Kept(x.peer.reliable, ReportOf(x, y, n), 0);
    DeliverReduces(x, y, n);
    if Unwritten(x, k) {
      var i :| 0 <= i < |x.numbers| && x.numbers[i] == k;
      assert ItemOk(x, x.peer.reliable[i], k);
      KeptStays(x.numbers, kept, i);
      if k in Select(x.numbers, kept) {
        var j :| 0 <= j < |kept| && Select(x.numbers, kept)[j] == k;
        assert x.numbers[kept[j]] == k && kept[j] == i;
      }
    }
  }

  /** As long as every arrival met the arrival condition, the delivered messages are exactly the first
      accepted ones, in order and once each: those before the first number that has not arrived. */
  lemma {:induction false} DeliveryIsInOrder(moves: seq<Move>)
    requires Play(moves).b.ordered
    ensures var w := Play(moves);
            && Delivered(w.b) <= w.a.accepted
            && (forall k | 0 <= k < |Delivered(w.b)| :: k in w.b.handed)
            && |Delivered(w.b)| !in w.b.handed
  {
    var w := Play(moves);
    PlayKeepsInv(moves);
    LapTurnsOnEmptyStore(FullInbox(w.b), w.a.accepted, w.b.handed);
  }

  /** End to end: when the sender's queue has become empty, everything it accepted has been delivered,
      in order and once, provided at most 1025 packets were sent, every arrival met the arrival
      condition and no message was removed unwritten. */
  lemma {:induction false} EmptyQueueMeansAllDelivered(moves: seq<Move>)
    requires var w := Play(moves);
             && |w.a.records| <= 1025 && w.b.ordered && w.a.lost == {}
             && w.a.peer.reliable == []
    ensures var w := Play(moves); Delivered(w.b) == w.a.accepted
  {
    var w := Play(moves);
    PlayKeepsInv(moves);
    DeliveryIsInOrder(moves);
    NoWrittenMessageIsLost(moves);
    var k := |Delivered(w.b)|;
    assert !AccountedFor(w, k);
    assert k == |w.a.accepted|;
  }

  /** In a session of at most 32769 reliable messages the arrival condition fails only if a packet with
      reliable messages arrives first that does not start with message 0. */
  lemma {:induction false} ShortSessionStaysOrderedIff(moves: seq<Move>, n: nat)
    requires var w := Play(moves);
             w.b.ordered && |w.a.accepted| <= 32769 && n < |w.a.records|
    ensures var w := Play(moves);
            var numbers := w.a.records[n].numbers;
            TakeDelivery(w.b, w.a, n).ordered <==> Delivered(w.b) != [] || numbers == [] || numbers[0] == 0
  {
    var w := Play(moves);
    PlayKeepsInv(moves);
    DeliverReads(w.b, w.a, n);
    assert PacketOk(w.a, n);
    SafeOnceStartedIff(FullInbox(w.b), w.a.records[n].numbers, w.a.accepted, w.b.handed);
  }

  lemma SafeOnceStartedIff(box: Inbox, numbers: seq<nat>, log: seq<Payload>, got: set<nat>)
    requires InOrder(box, log, got) && |log| <= 32769
    requires forall j | 0 <= j < |numbers| :: numbers[j] < |log|
    ensures AllSafe(box, numbers, log) <==> box.queue != [] || numbers == [] || numbers[0] == 0
  {
    if box.queue != [] {
      StartedIsSafe(box, numbers, log, got);
    } else if numbers != [] && numbers[0] == 0 {
      NothingBeforeZero(box, log, got);
      StartedIsSafe(Receive(box, Wire(0), log[0]), numbers[1..], log, got + {0});
    }
  }

  lemma NothingBeforeZero(box: Inbox, log: seq<Payload>, got: set<nat>)
    requires InOrder(box, log, got) && box.queue == [] && log != []
    ensures Safe(-1, 0) && InOrder(Receive(box, Wire(0), log[0]), log, got + {0})
    ensures Receive(box, Wire(0), log[0]).queue != []
  {
    DeliverKeepsOrder(box, log, got);
    JudgeIsRight(-1, 0);
    DrainDeliversRun(box.(last := 0, queue := box.queue + [log[0]]), 0);
  }

  lemma {:induction false} StartedIsSafe(box: Inbox, numbers: seq<nat>, log: seq<Payload>, got: set<nat>)
    requires InOrder(box, log, got) && box.queue != [] && |log| <= 32769
    requires forall j | 0 <= j < |numbers| :: numbers[j] < |log|
    ensures AllSafe(box, numbers, log)
    decreases |numbers|
  {
    if numbers != [] {
      var n := numbers[0];
      ShortSessionIsSafe(|box.queue| - 1, n);
      ArrivalKeepsOrderIff(box, log, got, n);
      ReceiveOnlyAppends(box, Wire(n), log[n]);
      StartedIsSafe(Receive(box, Wire(n), log[n]), numbers[1..], log, got + {n});
    }
  }

  lemma ReceiveOnlyAppends(box: Inbox, s: SequenceNumber, m: Payload)
    ensures box.queue <= Receive(box, s, m).queue
  {
    if Judge(box.last, s) == OrderedChannel.Deliver {
      DrainDeliversRun(box.(last := s, queue := box.queue + [m]), 0);
    }
  }
}
