/** Exactly when a message that was written into a packet is lost, in any run. */
module Losses {
  import opened SequenceNumbers
  import opened PacketAcks
  import opened Packing
  import opened Channels
  import opened Session
  import opened Guarantees
  import opened LossFreeRound

  /** In this step endpoint a reads a reply that takes message `k` out of its queue: the slot of the last
      packet that carried it still holds that packet's number, and the reply's ack field speaks for it. */
  ghost predicate Removes(w: World, m: Move, k: nat) {
    && m.byA && m.action.Delivery? && m.action.n < |w.b.records| && k in w.a.numbers
    && exists n :: 0 <= n < |w.a.records| && LastCarrier(w.a, k, n) &&
                   Takes(|w.a.records|, w.b.records[m.action.n], n)
  }

  lemma {:induction false} StepRemovesIff(moves: seq<Move>, m: Move, k: nat)
    requires var w := Play(moves); k in w.a.numbers && k in w.a.written
    ensures var w := Play(moves); k !in Next(w, m).a.numbers <==> Removes(w, m, k)
  {
    var w := Play(moves);
    PlayKeepsInv(moves);
    if m.byA && m.action.Delivery? && m.action.n < |w.b.records| {
      var i :| 0 <= i < |w.a.numbers| && w.a.numbers[i] == k;
      var n := CarrierOf(w.a, i);
      ReplyRemovesIff(moves, m.action.n, i, n);
      forall n' | 0 <= n' < |w.a.records| && LastCarrier(w.a, k, n')
        ensures n' == n
      {
        OneLastCarrier(w.a, k, n, n');
      }
    } else {
      StepKeepsQueued(w, m, k);
    }
  }

  lemma StepKeepsQueued(w: World, m: Move, k: nat)
    requires k in w.a.numbers && !(m.byA && m.action.Delivery? && m.action.n < |w.b.records|)
    ensures k in Next(w, m).a.numbers
  {
  }

  /** Nothing that left the queue comes back to it, and only queued messages are written. */
  lemma {:induction false} StepQueuesOnlyNew(moves: seq<Move>, m: Move, k: nat)
    requires k < |Play(moves).a.accepted|
    ensures var (w, w') := (Play(moves), Next(Play(moves), m));
            && k < |w'.a.accepted| && (k in w'.a.numbers ==> k in w.a.numbers)
            && (k in w'.a.written && k !in w.a.written ==> k in w.a.numbers && k in w'.a.numbers)
  {
    var w := Play(moves);
    PlayKeepsInv(moves);
    if m.byA {
      match m.action
      case Emitted(c) => EmitWritesQueued(w.a, c, k);
      case Delivery(n) => if n < |w.b.records| { DeliverReduces(w.a, w.b, n); SelectsOld(w.a, w.b, n, k); }
      case _ =>
    }
  }

  lemma EmitWritesQueued(x: Endpoint, c: Clock, k: nat)
    requires SenderOk(x)
    ensures var x' := Emit(x, c);
            x'.numbers == x.numbers && x'.accepted == x.accepted && (k in x'.written ==> k in x.written || k in x.numbers)
  {
    WrittenNumbersMatch(x, c);
  }

  lemma SelectsOld(x: Endpoint, y: Endpoint, n: nat, k: nat)
    requires SenderOk(x) && SenderOk(y) && n < |y.records|
    ensures var x' := TakeDelivery(x, y, n);
            x'.accepted == x.accepted && x'.written == x.written && (k in x'.numbers ==> k in x.numbers)
  {
    DeliverReads(x, y, n);
    var kept := Kept(x.peer.reliable, ReportOf(x, y, n), 0);
    assert forall j | 0 <= j < |kept| :: Select(x.numbers, kept)[j] in x.numbers;
  }

  ghost predicate RemovedBefore(moves: seq<Move>, k: nat) {
    exists j | 0 <= j < |moves| :: RemovedAt(moves, j, k)
  }

  ghost predicate RemovedAt(moves: seq<Move>, j: nat, k: nat)
    requires j < |moves|
  {
    Removes(Play(moves[..j]), moves[j], k)
  }

  lemma {:induction false} RemovedAtEarlier(moves: seq<Move>, j: nat, k: nat)
    requires j < |moves| - 1
    ensures RemovedAt(moves, j, k) <==> RemovedAt(moves[..|moves| - 1], j, k)
  {
    assert moves[..|moves| - 1][..j] == moves[..j];
  }

  lemma {:induction false} RemovedBeforeMore(moves: seq<Move>, k: nat)
    requires moves != []
    ensures var n := |moves| - 1;
            RemovedBefore(moves, k) <==> RemovedBefore(moves[..n], k) || RemovedAt(moves, n, k)
  {
    var most := moves[..|moves| - 1];
    forall j | 0 <= j < |most|
      ensures RemovedAt(moves, j, k) <==> RemovedAt(most, j, k)
    {
      RemovedAtEarlier(moves, j, k);
    }
  }

  lemma {:induction false} RemovedWasWritten(moves: seq<Move>, k: nat)
    requires RemovedBefore(moves, k)
    ensures k in Play(moves).a.written
  {
    var most, m := moves[..|moves| - 1], moves[|moves| - 1];
    RemovedBeforeMore(moves, k);
    PlayKeepsInv(most);
    if RemovedBefore(most, k) {
      RemovedWasWritten(most, k);
    } else {
      var w := Play(most);
      var n :| 0 <= n < |w.a.records| && LastCarrier(w.a, k, n) && Takes(|w.a.records|, w.b.records[m.action.n], n);
      assert PacketOk(w.a, n);
    }
    StepKeepsWritten(most, m);
  }

  lemma {:induction false} StepKeepsWritten(moves: seq<Move>, m: Move)
    ensures Play(moves).a.written <= Next(Play(moves), m).a.written
    ensures (m.byA && m.action.Emitted?) || Next(Play(moves), m).a.written == Play(moves).a.written
  {
    var w := Play(moves);
    PlayKeepsInv(moves);
    if m.byA && m.action.Delivery? && m.action.n < |w.b.records| {
      DeliverReads(w.a, w.b, m.action.n);
    }
  }

  /** A written message has left the queue exactly if some step removed it so. */
  lemma {:induction false} WrittenLeavesIff(moves: seq<Move>, k: nat)
    requires k in Play(moves).a.written
    ensures k !in Play(moves).a.numbers <==> RemovedBefore(moves, k)
  {
    if moves != [] {
      var most, m := moves[..|moves| - 1], moves[|moves| - 1];
      var w := Play(most);
      RemovedBeforeMore(moves, k);
      if k in w.a.written {
        PlayKeepsInv(most);
        StepQueuesOnlyNew(most, m, k);
        WrittenLeavesIff(most, k);
        if k in w.a.numbers { StepRemovesIff(most, m, k); }
      } else {
        NotYetRemoved(most, m, k);
      }
    }
  }

  lemma {:induction false} NotYetRemoved(moves: seq<Move>, m: Move, k: nat)
    requires k !in Play(moves).a.written && k in Next(Play(moves), m).a.written
    ensures !RemovedBefore(moves, k) && !Removes(Play(moves), m, k) && k in Next(Play(moves), m).a.numbers
  {
    var w := Play(moves);
    if RemovedBefore(moves, k) { RemovedWasWritten(moves, k); }
    PlayKeepsInv(moves);
    StepKeepsWritten(moves, m);
    EmitWritesQueued(w.a, m.action.c, k);
  }

  /** In any run of any length, a written message is lost, that is neither queued nor handed to the
      receiving channel, exactly if it was not handed over and some step read a reply that removed it:
      one whose ack field spoke for its last packet while the packet's slot held its number. */
  lemma {:induction false} WrittenMessageIsLostIff(moves: seq<Move>, k: nat)
    requires k in Play(moves).a.written
    ensures !AccountedFor(Play(moves), k) <==> k !in Play(moves).b.handed && RemovedBefore(moves, k)
  {
    WrittenLeavesIff(moves, k);
  }

  /** The last packet `n` of a message is one of the 32 before the highest that the reply acks, never
      arrived, and something with its number modulo 1024 had. */
  ghost predicate StaleSlotSpeaks(sent: nat, r: PacketRecord, n: nat) {
    && sent - 1024 <= n && r.highest - 32 <= n < r.highest
    && n !in r.seen && SomeInSlot(r.seen, n % 1024)
  }

  /** Up to 32767 packets, a step makes `a` lose a written message exactly if it reads a reply in which the
      stale slot of an older packet speaks for the last packet that carried it. */
  lemma {:induction false} LostByStaleSlotIff(moves: seq<Move>, m: Move, k: nat)
    requires var w := Play(moves); k in w.a.written && AccountedFor(w, k) && |w.a.records| <= 32767
    ensures var w := Play(moves);
            !AccountedFor(Next(w, m), k) <==>
            && k !in w.b.handed && m.byA && m.action.Delivery? && m.action.n < |w.b.records|
            && exists n :: 0 <= n < |w.a.records| && LastCarrier(w.a, k, n) &&
                           StaleSlotSpeaks(|w.a.records|, w.b.records[m.action.n], n)
  {
    var w := Play(moves);
    PlayKeepsInv(moves);
    if k in w.b.handed {
      StepKeepsHanded(moves, m);
    } else {
      StepRemovesIff(moves, m, k);
      if m.byA && m.action.Delivery? && m.action.n < |w.b.records| {
        forall n | 0 <= n < |w.a.records| && LastCarrier(w.a, k, n)
          ensures Takes(|w.a.records|, w.b.records[m.action.n], n) <==> StaleSlotSpeaks(|w.a.records|, w.b.records[m.action.n], n)
        {
          TakesByStaleSlot(w.a, w.b, m.action.n, k, n);
        }
      } else {
        StepKeepsQueued(w, m, k);
      }
      if m.byA { assert Next(w, m).b == w.b; }
    }
  }

  lemma {:induction false} StepKeepsHanded(moves: seq<Move>, m: Move)
    ensures Play(moves).b.handed <= Next(Play(moves), m).b.handed
  {
    var w := Play(moves);
    PlayKeepsInv(moves);
    if !m.byA && m.action.Delivery? && m.action.n < |w.a.records| {
      DeliverReads(w.b, w.a, m.action.n);
    }
  }

  lemma TakesByStaleSlot(x: Endpoint, y: Endpoint, reply: nat, k: nat, n: nat)
    requires SenderOk(x) && Link(x, y) && |x.records| <= 32767 && reply < |y.records|
    requires k !in y.handed && n < |x.records| && LastCarrier(x, k, n)
    ensures Takes(|x.records|, y.records[reply], n) <==> StaleSlotSpeaks(|x.records|, y.records[reply], n)
  {
    var r := y.records[reply];
    NeverArrived(x, y, reply, k, n);
    HoldsSlotInLap(|x.records|, n);
    GapFromHighest(r.highest, n);
  }

  lemma GapFromHighest(h: int, n: nat)
    requires -1 <= h < 32767 && n < 32767
    ensures Gap(Wire(h), n) == if h >= n then h - n else h - n + 65536
  {
    WireOfWire(h, 0 - n as int);
  }

  lemma NeverArrived(x: Endpoint, y: Endpoint, reply: nat, k: nat, n: nat)
    requires SenderOk(x) && Link(x, y) && |x.records| <= 32767 && reply < |y.records|
    requires k !in y.handed && n < |x.records| && LastCarrier(x, k, n)
    ensures var r := y.records[reply];
            n !in r.seen && r.ack == Wire(r.highest) && -1 <= r.highest < |x.records| && r.highest != n
  {
    assert RecordAcksOk(y.records[reply], y.acks.arrived, |x.records|);
    assert n !in y.acks.arrived;
  }
}
