/** The receiving side of the reliable channel (src/channel/Peer.cpp:36-78): what one arrival does,
    and when that keeps delivery in order, exactly once. */
module OrderedChannel {
  import opened SequenceNumbers

  import Bytes

  type Payload = Bytes.Payload

  /** `last` is m_sequenceNumberOfLastDelivered, `store` is m_messagesToStore and `queue` is
      everything that was ever put into m_reliableMessagesToDeliver. */
  datatype Inbox = Inbox(last: SequenceNumber, store: map<SequenceNumber, Payload>, queue: seq<Payload>)

  /** The drain loop from key `key` on: std::map iterates in ascending key order. */
  function Drain(box: Inbox, key: nat): (r: Inbox)
    requires key <= 65536
    ensures r.store == box.store
    decreases 65536 - key
  {
    if key == 65536 then box
    else if key in box.store && key - box.last == 1 then
      Drain(box.(last := Wire(box.last + 1), queue := box.queue + [box.store[key]]), key + 1)
    else Drain(box, key + 1)
  }

  /** The erase loop. */
  function Purge(store: map<SequenceNumber, Payload>, last: SequenceNumber): map<SequenceNumber, Payload> {
    map k | k in store && k > last :: store[k]
  }

  datatype Verdict = Drop | Store | Deliver

  /** The three branches.  The gap test subtracts the 16-bit values as plain integers. */
  function Judge(last: SequenceNumber, s: SequenceNumber): Verdict {
    if SequenceEqualOrGreaterThan(last, s) then Drop
    else if s - last > 1 then Store
    else Deliver
  }

  function Receive(box: Inbox, s: SequenceNumber, m: Payload): Inbox {
    match Judge(box.last, s)
    case Drop => box
    case Store => if s in box.store then box else box.(store := box.store[s := m])
    case Deliver =>
      var drained := Drain(box.(last := s, queue := box.queue + [m]), 0);
      drained.(store := Purge(drained.store, drained.last))
  }

  // ---------------------------------------------------------------------------------------------
  // What the inbox is meant to be

  /** The unbounded number that stored key `k` stands for when `d` was delivered last. */
  function Lift(d: int, k: SequenceNumber): int {
    65536 * Lap(d) + k
  }

  /** `log[n]` is the message the sender accepted as number n, `got` the numbers that arrived so far.
      Exactly the messages before the first missing one are delivered, in order, and exactly the
      other arrivals are stored, each under its own number. */
  ghost predicate InOrder(box: Inbox, log: seq<Payload>, got: set<nat>) {
    var d := |box.queue| - 1;
    && box.queue <= log
    && box.last == Wire(d)
    && (forall k | k in box.store ::
          && 1 < k - box.last <= HALF_MAX_SEQUENCE_NUMBER
          && Lift(d, k) < |log|
          && box.store[k] == log[Lift(d, k)])
    && (forall n: nat :: n in got <==> n <= d || (Lap(n) == Lap(d) && Wire(n) in box.store))
  }

  /** The arrival condition: number n arrives when d was delivered last.  A number already delivered
      must be recognised as old; the next number is always fine; a number further ahead must lie in
      the lap of d and at most half a lap ahead. */
  predicate Safe(d: int, n: int) {
    if n <= d then
      || (d - n) % 65536 < HALF_MAX_SEQUENCE_NUMBER
      || ((d - n) % 65536 == HALF_MAX_SEQUENCE_NUMBER && Wire(d) > Wire(n))
    else n == d + 1 || (Lap(n) == Lap(d) && n - d <= HALF_MAX_SEQUENCE_NUMBER)
  }

  /** The one unsafe arrival that does no harm: an old number taken for a new one whose key is
      already occupied. */
  predicate Shadowed(box: Inbox, d: int, n: int) {
    n <= d && Wire(n) in box.store
  }

  /** An old number is dropped, the next one delivered, any other stored under the key that stands for it. */
  predicate RightVerdict(d: int, n: int) {
    var verdict := Judge(Wire(d), Wire(n));
    if n <= d then verdict == Drop
    else if n == d + 1 then verdict == Deliver
    else verdict == Store && Lift(d, Wire(n)) == n
  }

  lemma JudgeIsRight(d: int, n: int)
    requires d >= -1 && n >= 0
    ensures RightVerdict(d, n) <==> Safe(d, n)
    ensures n <= d ==> (Judge(Wire(d), Wire(n)) == Drop <==> Safe(d, n))
    ensures n == d + 1 ==> Judge(Wire(d), Wire(n)) == Deliver
    ensures n > d + 1 && Lap(n) == Lap(d) ==> (Judge(Wire(d), Wire(n)) == Store <==> Safe(d, n))
    ensures n > d + 1 && Lap(n) == Lap(d) && !Safe(d, n) ==> Judge(Wire(d), Wire(n)) == Drop
  {
    WireParts(d);
    WireParts(n);
    if n <= d {
      var g := (d - n) % 65536;
      assert g == if Wire(d) >= Wire(n) then Wire(d) - Wire(n) else Wire(d) - Wire(n) + 65536;
    }
  }

  /** The stored messages with consecutive keys from `k` on. */
  function RunFrom(store: map<SequenceNumber, Payload>, k: nat): seq<Payload>
    decreases 65536 - k
  {
    if k < 65536 && k in store then [store[k]] + RunFrom(store, k + 1) else []
  }

  lemma {:induction false} RunFromIsMaximal(store: map<SequenceNumber, Payload>, k: nat)
    requires k <= 65536
    ensures var run := RunFrom(store, k);
            && k + |run| <= 65536
            && (forall j | k <= j < k + |run| :: j in store && run[j - k] == store[j])
            && (k + |run| < 65536 ==> k + |run| !in store)
    decreases 65536 - k
  {
    if k < 65536 && k in store {
      RunFromIsMaximal(store, k + 1);
    }
  }

  /** One ascending pass over the store is enough: it delivers the whole run behind the last message. */
  lemma {:induction false} DrainDeliversRun(box: Inbox, key: nat)
    requires key <= box.last + 1
    ensures var run := RunFrom(box.store, box.last + 1);
            && box.last + |run| < 65536
            && Drain(box, key) == box.(last := box.last + |run|, queue := box.queue + run)
    decreases 65536 - key
  {
    RunFromIsMaximal(box.store, box.last + 1);
    var run := RunFrom(box.store, box.last + 1);
    if key < 65536 {
      if key in box.store && key - box.last == 1 {
        var next := box.(last := key, queue := box.queue + [box.store[key]]);
        DrainDeliversRun(next, key + 1);
        var rest := RunFrom(box.store, key + 1);
        assert run == [box.store[key]] + rest;
        assert next.queue + rest == box.queue + run;
      } else if key <= box.last {
        DrainDeliversRun(box, key + 1);
      } else {
        DrainIdle(box, key);
        assert box.queue + [] == box.queue;
      }
    }
  }

  lemma DrainRun(box: Inbox)
    ensures var r := Drain(box, 0);
            && box.last <= r.last
            && |r.queue| == |box.queue| + (r.last - box.last)
            && r.queue[..|box.queue|] == box.queue
            && (r.last < 65535 ==> r.last + 1 !in box.store)
  {
    DrainDeliversRun(box, 0);
    RunFromIsMaximal(box.store, box.last + 1);
  }

  lemma {:induction false} DrainIdle(box: Inbox, key: nat)
    requires box.last < key <= 65536
    requires key == box.last + 1 ==> key == 65536 || key !in box.store
    ensures Drain(box, key) == box
    decreases 65536 - key
  {
    if key < 65536 {
      DrainIdle(box, key + 1);
    }
  }

  /** Number d+1 arrives: either it stays in the lap of d, or it starts a new lap and the store is
      empty. */
  lemma LapTurnsOnEmptyStore(box: Inbox, log: seq<Payload>, got: set<nat>)
    requires InOrder(box, log, got)
    ensures var d := |box.queue| - 1;
            || (Lap(d + 1) == Lap(d) && Wire(d + 1) == box.last + 1)
            || (Lap(d + 1) == Lap(d) + 1 && Wire(d + 1) == 0 && box.store == map[])
  {
  }

  /** The stored keys above the last delivered number n stand for messages of the log. */
  ghost predicate StoreFollowsLog(box: Inbox, log: seq<Payload>, n: nat) {
    && box.last == Wire(n)
    && (forall k | k in box.store && k > box.last ::
          65536 * Lap(n) + k < |log| && box.store[k] == log[65536 * Lap(n) + k])
  }

  lemma StoredNumber(box: Inbox, log: seq<Payload>, n: nat, m: nat)
    requires StoreFollowsLog(box, log, n)
    requires n < m && Wire(n) + (m - n) < 65536
    ensures Lap(m) == Lap(n) && Wire(m) == box.last + (m - n)
    ensures Wire(m) in box.store ==> m < |log| && box.store[Wire(m)] == log[m]
  {
  }

  /** The drained inbox is still numbered by what it delivered. */
  lemma DrainKeepsNumbering(start: Inbox)
    requires start.queue != [] && start.last == Wire(|start.queue| - 1)
    ensures var n := |start.queue| - 1;
            var r := Drain(start, 0);
            && n < |r.queue| && |r.queue| - 1 - n == r.last - start.last
            && r.last == Wire(|r.queue| - 1) && Lap(|r.queue| - 1) == Lap(n)
  {
    DrainRun(start);
    WireShift(|start.queue| - 1, Drain(start, 0).last - start.last);
  }

  lemma DrainedAt(start: Inbox, m: nat)
    requires start.queue != [] && |start.queue| <= m < |Drain(start, 0).queue|
    ensures var k := start.last + (m - |start.queue| + 1);
            k in start.store && Drain(start, 0).queue[m] == start.store[k]
  {
    DrainDeliversRun(start, 0);
    RunFromIsMaximal(start.store, start.last + 1);
    var run := RunFrom(start.store, start.last + 1);
    var k := start.last + (m - |start.queue| + 1);
    assert run[k - (start.last + 1)] == start.store[k];
  }

  lemma DrainedMessage(start: Inbox, log: seq<Payload>, m: nat)
    requires start.queue != [] && start.queue <= log
    requires StoreFollowsLog(start, log, |start.queue| - 1)
    requires |start.queue| <= m < |Drain(start, 0).queue|
    ensures Lap(m) == Lap(|start.queue| - 1) && Wire(m) in start.store
    ensures m < |log| && Drain(start, 0).queue[m] == log[m]
  {
    var n := |start.queue| - 1;
    DrainKeepsNumbering(start);
    StoredNumber(start, log, n, m);
    DrainedAt(start, m);
  }

  /** What the drained inbox has delivered after number n: the log, as far as the run reaches. */
  lemma DrainFollowsLog(start: Inbox, log: seq<Payload>)
    requires start.queue != [] && start.queue <= log
    requires StoreFollowsLog(start, log, |start.queue| - 1)
    ensures var n := |start.queue| - 1;
            var r := Drain(start, 0);
            var d' := |r.queue| - 1;
            && n <= d' && r.last == Wire(d') && Lap(d') == Lap(n)
            && r.queue <= log
            && (forall m: nat | n < m <= d' :: Lap(m) == Lap(n) && Wire(m) in start.store)
            && (r.last < 65535 ==> r.last + 1 !in start.store)
  {
    var r := Drain(start, 0);
    DrainKeepsNumbering(start);
    DrainRun(start);
    forall m: nat | |start.queue| <= m < |r.queue|
      ensures Lap(m) == Lap(|start.queue| - 1) && Wire(m) in start.store && m < |log| && r.queue[m] == log[m]
    {
      DrainedMessage(start, log, m);
    }
    forall m | 0 <= m < |r.queue|
      ensures m < |log| && r.queue[m] == log[m]
    {
    }
  }

  /** Number d+1 arrives: it and the run of stored numbers behind it are delivered. */
  lemma DeliverDelivers(box: Inbox, log: seq<Payload>, got: set<nat>)
    requires InOrder(box, log, got) && |box.queue| < |log|
    ensures var n := |box.queue|;
            var r := Receive(box, Wire(n), log[n]);
            var d' := |r.queue| - 1;
            && n <= d' && r.last == Wire(d') && Lap(d') == Lap(n)
            && r.store == Purge(box.store, r.last)
            && r.queue <= log
            && (forall m: nat | n < m <= d' :: Lap(m) == Lap(n) && Wire(m) in box.store)
            && (r.last < 65535 ==> r.last + 1 !in box.store)
  {
    var n := |box.queue|;
    JudgeIsRight(n - 1, n);
    LapTurnsOnEmptyStore(box, log, got);
    DrainFollowsLog(box.(last := Wire(n), queue := box.queue + [log[n]]), log);
  }

  /** The numbers that have arrived, seen from the last delivered number d' of the same lap as n. */
  lemma ArrivedSeenFrom(box: Inbox, d: int, n: nat, d': nat, store': map<SequenceNumber, Payload>, m: nat)
    requires d + 1 == n <= d' && Lap(d') == Lap(n)
    requires Lap(n) == Lap(d) || box.store == map[]
    requires store' == Purge(box.store, Wire(d'))
    requires n < m <= d' ==> Lap(m) == Lap(n) && Wire(m) in box.store
    ensures m == n || m <= d || (Lap(m) == Lap(d) && Wire(m) in box.store)
       <==> m <= d' || (Lap(m) == Lap(d') && Wire(m) in store')
  {
  }

  lemma DeliverKeepsOrder(box: Inbox, log: seq<Payload>, got: set<nat>)
    requires InOrder(box, log, got) && |box.queue| < |log|
    ensures var n := |box.queue|;
            InOrder(Receive(box, Wire(n), log[n]), log, got + {n})
  {
    var n := |box.queue|;
    var d := n - 1;
    LapTurnsOnEmptyStore(box, log, got);
    DeliverDelivers(box, log, got);
    var r := Receive(box, Wire(n), log[n]);
    var d' := |r.queue| - 1;
    forall m: nat
      ensures m in got + {n} <==> m <= d' || (Lap(m) == Lap(d') && Wire(m) in r.store)
    {
      ArrivedSeenFrom(box, d, n, d', r.store, m);
    }
    forall k | k in r.store
      ensures 1 < k - r.last <= HALF_MAX_SEQUENCE_NUMBER && Lift(d', k) == Lift(d, k)
    {
    }
  }

  lemma SafeKeepsOrder(box: Inbox, log: seq<Payload>, got: set<nat>, n: nat)
    requires InOrder(box, log, got) && n < |log|
    requires Safe(|box.queue| - 1, n) || Shadowed(box, |box.queue| - 1, n)
    ensures InOrder(Receive(box, Wire(n), log[n]), log, got + {n})
  {
    var d := |box.queue| - 1;
    JudgeIsRight(d, n);
    WireParts(d);
    WireParts(n);
    if n == d + 1 {
      DeliverKeepsOrder(box, log, got);
    } else if n <= d {
      assert got + {n} == got;
      if !Safe(d, n) {
        assert Judge(box.last, Wire(n)) == Store;
      }
    } else {
      var r := Receive(box, Wire(n), log[n]);
      forall m: nat
        ensures m in got + {n} <==> m <= d || (Lap(m) == Lap(d) && Wire(m) in r.store)
      {
        WireParts(m);
      }
    }
  }

  /** Delivering a number that is not the next one breaks order. */
  lemma WrongDeliveryBreaksOrder(box: Inbox, log: seq<Payload>, got: set<nat>, n: nat)
    requires InOrder(box, log, got) && n < |log|
    requires Judge(box.last, Wire(n)) == Deliver && n != |box.queue|
    ensures !InOrder(Receive(box, Wire(n), log[n]), log, got + {n})
  {
    var d := |box.queue| - 1;
    DrainRun(box.(last := Wire(n), queue := box.queue + [log[n]]));
    LapTurnsOnEmptyStore(box, log, got);
    assert d + 1 !in got + {n};
  }

  /** Storing a number that was already delivered breaks order, unless its key is occupied. */
  lemma WrongStoreBreaksOrder(box: Inbox, log: seq<Payload>, got: set<nat>, n: nat)
    requires InOrder(box, log, got) && n < |log|
    requires Judge(box.last, Wire(n)) == Store && n < |box.queue| && Wire(n) !in box.store
    ensures !InOrder(Receive(box, Wire(n), log[n]), log, got + {n})
  {
    var d := |box.queue| - 1;
    var m: nat := d + (Wire(n) - box.last);
    WireShift(d, m - d);
    assert m !in got + {n};
    assert Lap(m) == Lap(d) && Wire(m) in Receive(box, Wire(n), log[n]).store;
  }

  /** Losing, or storing under the wrong number, one that is ahead breaks order. */
  lemma WrongAheadBreaksOrder(box: Inbox, log: seq<Payload>, got: set<nat>, n: nat)
    requires InOrder(box, log, got) && |box.queue| < n < |log|
    requires Judge(box.last, Wire(n)) != Deliver && !Safe(|box.queue| - 1, n)
    ensures !InOrder(Receive(box, Wire(n), log[n]), log, got + {n})
  {
  }

  /** One arrival, any inbox in order: order is kept exactly when the arrival is safe (or harmlessly
      shadowed).  Afterwards the delivered count is again the least number that has not arrived. */
  lemma ArrivalKeepsOrderIff(box: Inbox, log: seq<Payload>, got: set<nat>, n: nat)
    requires InOrder(box, log, got) && n < |log|
    ensures InOrder(Receive(box, Wire(n), log[n]), log, got + {n})
       <==> Safe(|box.queue| - 1, n) || Shadowed(box, |box.queue| - 1, n)
  {
    if Safe(|box.queue| - 1, n) || Shadowed(box, |box.queue| - 1, n) {
      SafeKeepsOrder(box, log, got, n);
    } else {
      JudgeIsRight(|box.queue| - 1, n);
      if Judge(box.last, Wire(n)) == Deliver {
        WrongDeliveryBreaksOrder(box, log, got, n);
      } else if n < |box.queue| {
        WrongStoreBreaksOrder(box, log, got, n);
      } else {
        WrongAheadBreaksOrder(box, log, got, n);
      }
    }
  }

  // ---------------------------------------------------------------------------------------------
  // Whole runs of arrivals

  const EMPTY_INBOX := Inbox(MAX_SEQUENCE_NUMBER, map[], [])

  /** Only accepted messages arrive. */
  ghost predicate Sendable(log: seq<Payload>, arrivals: seq<nat>) {
    forall i | 0 <= i < |arrivals| :: arrivals[i] < |log|
  }

  /** The inbox after the numbers `arrivals` came in, in that order: any of them any number of times. */
  ghost function AfterArrivals(log: seq<Payload>, arrivals: seq<nat>): Inbox
    requires Sendable(log, arrivals)
  {
    if arrivals == [] then EMPTY_INBOX
    else
      var k := |arrivals| - 1;
      Receive(AfterArrivals(log, arrivals[..k]), Wire(arrivals[k]), log[arrivals[k]])
  }

  function Arrived(arrivals: seq<nat>): set<nat> {
    if arrivals == [] then {}
    else Arrived(arrivals[..|arrivals| - 1]) + {arrivals[|arrivals| - 1]}
  }

  ghost predicate InOrderAfter(log: seq<Payload>, arrivals: seq<nat>)
    requires Sendable(log, arrivals)
  {
    InOrder(AfterArrivals(log, arrivals), log, Arrived(arrivals))
  }

  /** The arrival condition, for the last of `arrivals`. */
  ghost predicate LastIsSafe(log: seq<Payload>, arrivals: seq<nat>)
    requires arrivals != [] && Sendable(log, arrivals)
  {
    var k := |arrivals| - 1;
    var before := AfterArrivals(log, arrivals[..k]);
    var d := |before.queue| - 1;
    Safe(d, arrivals[k]) || Shadowed(before, d, arrivals[k])
  }

  lemma LastArrivalIff(log: seq<Payload>, arrivals: seq<nat>)
    requires arrivals != [] && Sendable(log, arrivals)
    requires InOrderAfter(log, arrivals[..|arrivals| - 1])
    ensures InOrderAfter(log, arrivals) <==> LastIsSafe(log, arrivals)
  {
    var init := arrivals[..|arrivals| - 1];
    ArrivalKeepsOrderIff(AfterArrivals(log, init), log, Arrived(init), arrivals[|arrivals| - 1]);
  }

  /** In order after every arrival of the run. */
  ghost predicate AlwaysInOrder(log: seq<Payload>, arrivals: seq<nat>)
    requires Sendable(log, arrivals)
  {
    InOrderAfter(log, arrivals) && (arrivals != [] ==> AlwaysInOrder(log, arrivals[..|arrivals| - 1]))
  }

  /** Every arrival of the run met the arrival condition. */
  ghost predicate AlwaysSafe(log: seq<Payload>, arrivals: seq<nat>)
    requires Sendable(log, arrivals)
  {
    arrivals != [] ==> LastIsSafe(log, arrivals) && AlwaysSafe(log, arrivals[..|arrivals| - 1])
  }

  /** Delivery is in order and exactly once throughout a run, over any number of laps, exactly when
      every arrival of the run was safe. */
  lemma {:induction false} RunInOrderIff(log: seq<Payload>, arrivals: seq<nat>)
    requires Sendable(log, arrivals)
    ensures AlwaysInOrder(log, arrivals) <==> AlwaysSafe(log, arrivals)
  {
    if arrivals == [] {
      EmptyInboxInOrder(log);
    } else {
      var init := arrivals[..|arrivals| - 1];
      RunInOrderIff(log, init);
      if InOrderAfter(log, init) {
        LastArrivalIff(log, arrivals);
      }
    }
  }

  lemma EmptyInboxInOrder(log: seq<Payload>)
    ensures InOrder(EMPTY_INBOX, log, {})
  {
  }

  /** A session of at most 32769 reliable messages is delivered in order exactly when message 0 is
      the first to arrive, whatever is lost, repeated or overtaken later. */
  lemma ShortSessionInOrderIff(log: seq<Payload>, arrivals: seq<nat>)
    requires |log| <= 32769 && arrivals != []
    requires Sendable(log, arrivals)
    ensures AlwaysInOrder(log, arrivals) <==> arrivals[0] == 0
  {
    RunInOrderIff(log, arrivals);
    if arrivals[0] == 0 {
      ShortSessionSafe(log, arrivals);
    } else {
      ShortSessionUnsafe(log, arrivals);
    }
  }

  lemma ShortSessionIsSafe(d: int, n: nat)
    requires 0 <= d < 32769 && n < 32769
    ensures Safe(d, n)
  {
  }

  lemma ShortSessionLastSafe(log: seq<Payload>, arrivals: seq<nat>)
    requires |log| <= 32769 && |arrivals| > 1 && arrivals[0] == 0 && Sendable(log, arrivals)
    requires InOrderAfter(log, arrivals[..|arrivals| - 1])
    ensures LastIsSafe(log, arrivals)
  {
  }

  lemma {:induction false} ShortSessionSafe(log: seq<Payload>, arrivals: seq<nat>)
    requires |log| <= 32769 && arrivals != [] && arrivals[0] == 0
    requires Sendable(log, arrivals)
    ensures AlwaysInOrder(log, arrivals)
  {
    var init := arrivals[..|arrivals| - 1];
    if |arrivals| == 1 {
      EmptyInboxInOrder(log);
      assert AlwaysInOrder(log, init);
      assert LastIsSafe(log, arrivals);
    } else {
      ShortSessionSafe(log, init);
      ShortSessionLastSafe(log, arrivals);
    }
    LastArrivalIff(log, arrivals);
  }

  lemma {:induction false} ShortSessionUnsafe(log: seq<Payload>, arrivals: seq<nat>)
    requires arrivals != [] && 0 < arrivals[0] && Sendable(log, arrivals)
    ensures !AlwaysSafe(log, arrivals)
  {
    if |arrivals| == 1 {
      assert AfterArrivals(log, arrivals[..0]) == EMPTY_INBOX;
      assert !LastIsSafe(log, arrivals);
    } else {
      ShortSessionUnsafe(log, arrivals[..|arrivals| - 1]);
    }
  }

  /** Message 1 overtaking message 0 at the start of a session is delivered first, and message 0 is
      dropped when it comes. */
  lemma OvertakenFirstMessageIsLost(first: Payload, second: Payload)
    ensures AfterArrivals([first, second], [1, 0]).queue == [second]
  {
    var log := [first, second];
    assert [1, 0][..1] == [1] && [1][..0] == [] && EMPTY_INBOX.queue + [second] == [second];
    var start := EMPTY_INBOX.(last := 1, queue := [second]);
    assert Drain(start, 0) == start by { DrainDeliversRun(start, 0); }
    assert AfterArrivals(log, []) == EMPTY_INBOX;
    assert Receive(EMPTY_INBOX, 1, second).queue == [second];
    assert AfterArrivals(log, [1]) == Receive(EMPTY_INBOX, 1, second);
    assert Judge(1, 0) == Drop;
  }
}
